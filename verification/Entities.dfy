/** The typed gig model of `DataModel` (gigs/src/datamodel.py) and the
    normalisation `__normalize_gig` that turns one raw CSV row into it.

    The raw row reaches this model already split into fields: the JSON list
    columns as what `json.loads` gives (or the empty text), the price as the
    number `float` reads (or `None` when `float` rejects the text), the two
    dates as the instant `strptime` reads (or `None` on a format mismatch).
    Everything else is done here on the text itself. */
module Entities {

  datatype Option<+T> = None | Some(value: T)

  datatype Result<+T, +E> = Ok(value: T) | Err(error: E)

  /** Why normalising a row raises. */
  datatype LoadError =
    | MissingParen   // `split('(')[1]` on an identifier without '(' (IndexError)
    | BadPrice       // `float(price)` rejects the text (ValueError)
    | BadCreated     // CREATED does not match '%Y-%m-%dT%H:%M:%S.%fZ'
    | BadStartDate   // START_DATE does not match it either

  /** The tri-state STALE value: True, False or None. */
  datatype Stale = StaleTrue | StaleFalse | StaleUnknown

  /** One entry of the DOCS list: its TYPE and SUBTYPE. */
  datatype Doc = Doc(kind: string, subkind: string)

  /** One chat message. `isAuto` holds exactly when IS_AUTO is present and is
      the boolean True; `toClient` when TO_CLIENT is the boolean True; `pmId`
      is present exactly when PM_ID is a string. `timestamp` is in epoch
      milliseconds. */
  datatype Chat = Chat(text: Option<string>, isAuto: bool, timestamp: int,
                       toClient: bool, pmId: Option<string>)

  /** A JSON list column: the empty text, or the list the text decodes to. */
  datatype RawList<+T> = Blank | Json(items: seq<T>)

  datatype RawRow = RawRow(
    id: string,
    price: Option<real>,
    created: Option<int>,
    startDate: Option<int>,
    stale: string,
    status: string,
    platforms: RawList<string>,
    docs: RawList<Doc>,
    keyFeatures: RawList<string>)

  /** A normalised gig, with the chat map that `read_chats` may fill in. */
  datatype Gig = Gig(
    id: string,
    price: int,
    created: int,
    startDate: int,
    stale: Stale,
    status: string,
    platforms: seq<string>,
    docs: seq<Doc>,
    keyFeatures: seq<string>,
    chats: map<string, Chat>)

  /** Position of the first `c` in `s`, as `str.find` gives it. */
  function FirstIndex(s: string, c: char): (r: Option<nat>)
    ensures r.None? <==> c !in s
    ensures r.Some? ==> r.value < |s| && s[r.value] == c && c !in s[..r.value]
  {
    if |s| == 0 then None
    else if s[0] == c then Some(0)
    else
      match FirstIndex(s[1..], c)
      case None => None
      case Some(i) =>
        assert s[..i + 1] == [s[0]] + s[1..][..i];
        Some(i + 1)
  }

  /** `s.split(c)[0]`: the text before the first `c`, or all of `s`. */
  function UpTo(s: string, c: char): (r: string)
    ensures r <= s && c !in r
    ensures r == s || (|r| < |s| && s[|r|] == c)
  {
    match FirstIndex(s, c)
    case None => s
    case Some(i) => s[..i]
  }

  /** `key.split('(')[1].split(')')[0]`: the identifier inside the wrapped
      key. It starts right after the first '(' and stops at the next '(' or
      ')', or at the end of the key. */
  function ExtractId(key: string): (r: Result<string, LoadError>)
    ensures r.Ok? <==> '(' in key
    ensures r.Err? ==> r.error == MissingParen
    ensures r.Ok? ==> '(' !in r.value && ')' !in r.value
    ensures r.Ok? ==> exists i :: IdAt(key, i, r.value)
  {
    match FirstIndex(key, '(')
    case None => Err(MissingParen)
    case Some(i) =>
      var v := UpTo(UpTo(key[i + 1..], '('), ')');
      assert IdAt(key, i, v);
      Ok(v)
  }

  /** `v` is the identifier read from `key` when the first '(' is at `i`. */
  ghost predicate IdAt(key: string, i: int, v: string)
  {
    0 <= i < |key| && key[i] == '(' && '(' !in key[..i] &&
    v <= key[i + 1..] &&
    (i + 1 + |v| == |key| || key[i + 1 + |v|] == '(' || key[i + 1 + |v|] == ')')
  }

  /** Cutting `t + rest` at `c` gives `t` when `t` has no `c` and `rest` is
      empty or starts with `c`. */
  lemma UpToStopsAt(t: string, rest: string, c: char)
    requires c !in t && (rest == [] || rest[0] == c)
    ensures UpTo(t + rest, c) == t
  {
    var s := t + rest;
    var r := UpTo(s, c);
    assert |r| == |t|;
    assert r == s[..|t|] == t;
  }

  /** Wrapping an identifier that has no parentheses, after a prefix that has
      no '(', and reading it back gives the identifier. */
  lemma ExtractIdOfWrapped(prefix: string, id: string, rest: string)
    requires '(' !in prefix && '(' !in id && ')' !in id
    requires rest == [] || rest[0] == ')' || rest[0] == '('
    ensures ExtractId(prefix + "(" + id + rest) == Ok(id)
  {
    var key := prefix + "(" + id + rest;
    assert key[|prefix|] == '(';
    var f := FirstIndex(key, '(');
    assert f.Some?;
    var i := f.value;
    assert i == |prefix|;
    assert key[i + 1..] == id + rest;
    if rest == [] || rest[0] == '(' {
      UpToStopsAt(id, rest, '(');
      UpToStopsAt(id, [], ')');
      assert id + [] == id;
    } else {
      var u := UpTo(id + rest, '(');
      assert |u| > |id|;
      assert u == id + u[|id|..];
      UpToStopsAt(id, u[|id|..], ')');
    }
  }

  /** `int(x)` on a float: truncation toward zero. */
  function TruncToInt(x: real): (r: int)
    ensures x >= 0.0 ==> 0 <= r && r as real <= x < r as real + 1.0
    ensures x < 0.0 ==> r <= 0 && r as real - 1.0 < x <= r as real
  {
    if x >= 0.0 then x.Floor else -((-x).Floor)
  }

  /** Python's `sub in s` on strings. */
  predicate Contains(s: string, sub: string)
    decreases |s|
  {
    |sub| <= |s| && (s[..|sub|] == sub || Contains(s[1..], sub))
  }

  /** `sub` occurs in `s` at some offset. */
  ghost predicate OccursAt(s: string, sub: string, i: int)
  {
    0 <= i && i + |sub| <= |s| && s[i..i + |sub|] == sub
  }

  lemma {:induction false} ContainsMeansOccurs(s: string, sub: string)
    ensures Contains(s, sub) <==> exists i :: OccursAt(s, sub, i)
    decreases |s|
  {
    if |sub| <= |s| {
      if s[..|sub|] == sub {
        assert OccursAt(s, sub, 0);
      } else {
        ContainsMeansOccurs(s[1..], sub);
        if exists i :: OccursAt(s[1..], sub, i) {
          var i :| OccursAt(s[1..], sub, i);
          assert s[i + 1..i + 1 + |sub|] == s[1..][i..i + |sub|];
          assert OccursAt(s, sub, i + 1);
        }
        if exists i :: OccursAt(s, sub, i) {
          var i :| OccursAt(s, sub, i);
          assert i != 0;
          assert s[1..][i - 1..i - 1 + |sub|] == s[i..i + |sub|];
          assert OccursAt(s[1..], sub, i - 1);
        }
      }
    }
  }

  /** The STALE column: True when "true" occurs somewhere in the text, even
      if "false" occurs too; otherwise False when "false" occurs; otherwise
      None. */
  function ParseStale(s: string): (r: Stale)
    ensures r == StaleTrue <==> exists i :: OccursAt(s, "true", i)
    ensures r == StaleFalse <==>
      (!exists i :: OccursAt(s, "true", i)) && exists i :: OccursAt(s, "false", i)
    ensures r == StaleUnknown <==>
      (!exists i :: OccursAt(s, "true", i)) && !exists i :: OccursAt(s, "false", i)
  {
    ContainsMeansOccurs(s, "true");
    ContainsMeansOccurs(s, "false");
    if Contains(s, "true") then StaleTrue
    else if Contains(s, "false") then StaleFalse
    else StaleUnknown
  }

  /** A JSON list column: the empty text becomes `[]`. */
  function DecodeList<T>(f: RawList<T>): seq<T>
  {
    match f
    case Blank => []
    case Json(items) => items
  }

  /** `__normalize_gig` followed by `gig[CHATS] = {}` in `read_gigs`. The
      first failing step, in the source's order, names the error. */
  function NormalizeGig(row: RawRow): (r: Result<Gig, LoadError>)
    ensures r.Ok? <==>
      '(' in row.id && row.price.Some? && row.created.Some? && row.startDate.Some?
    ensures r.Err? ==>
      (r.error == MissingParen <==> '(' !in row.id) &&
      (r.error == BadPrice <==> '(' in row.id && row.price.None?) &&
      (r.error == BadCreated <==> '(' in row.id && row.price.Some? && row.created.None?)
    ensures r.Ok? ==>
      Ok(r.value.id) == ExtractId(row.id) &&
      r.value.price == TruncToInt(row.price.value) &&
      r.value.created == row.created.value &&
      r.value.startDate == row.startDate.value &&
      r.value.stale == ParseStale(row.stale) &&
      r.value.status == row.status &&
      r.value.chats == map[]
    ensures r.Ok? ==>
      (row.platforms.Blank? ==> r.value.platforms == []) &&
      (row.docs.Blank? ==> r.value.docs == []) &&
      (row.keyFeatures.Blank? ==> r.value.keyFeatures == []) &&
      (row.platforms.Json? ==> r.value.platforms == row.platforms.items) &&
      (row.docs.Json? ==> r.value.docs == row.docs.items) &&
      (row.keyFeatures.Json? ==> r.value.keyFeatures == row.keyFeatures.items)
  {
    var platforms := DecodeList(row.platforms);
    var docs := DecodeList(row.docs);
    var keyFeatures := DecodeList(row.keyFeatures);
    match ExtractId(row.id)
    case Err(e) => Err(e)
    case Ok(id) =>
      if row.price.None? then Err(BadPrice)
      else if row.created.None? then Err(BadCreated)
      else if row.startDate.None? then Err(BadStartDate)
      else
        Ok(Gig(id, TruncToInt(row.price.value), row.created.value, row.startDate.value,
               ParseStale(row.stale), row.status, platforms, docs, keyFeatures, map[]))
  }
}
