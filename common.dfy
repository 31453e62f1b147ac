/** Shared vocabulary of the server and the game engines. */
module Common {

  /** Database identifiers (cuid strings in the store). */
  type UserId = string
  type RoomId = string

  datatype Option<T> = None | Some(value: T)

  /** A value, or the message of the `Error` the source throws or returns. */
  datatype Result<T> = Ok(value: T) | Err(error: string)

  /** A check that passes or fails with a message. */
  datatype Outcome = Pass | Fail(error: string)

  /** The `Asset` enum of the store: the adapters registered for it. */
  datatype Asset = USDT | ETH | POLYGON

  datatype GameType = Chess | TicTacToe

  /** A value as it arrives in a client payload (`unknown` in the source).
      JSON has no `undefined`; a missing field is `None` from `Field`. */
  datatype Json =
    | JNull
    | JBool(b: bool)
    | JNum(n: real)
    | JStr(s: string)
    | JArr(items: seq<Json>)
    | JObj(fields: map<string, Json>)

  /** `typeof v === 'object' && v != null`: arrays are objects too. */
  predicate IsObject(v: Json) {
    v.JArr? || v.JObj?
  }

  /** `v[name]` for the non-index names the source reads; `None` is `undefined`. */
  function Field(v: Json, name: string): (r: Option<Json>)
    ensures r.Some? ==> v.JObj? && name in v.fields && r.value == v.fields[name]
    ensures v.JObj? && name in v.fields ==> r.Some?
  {
    if v.JObj? && name in v.fields then Some(v.fields[name]) else None
  }
}

/** The JavaScript string operations the core relies on. */
module JsString {

  /** The characters `String.prototype.trim` removes: WhiteSpace and LineTerminator
      of ECMAScript (section 12.2 and 12.3 of ECMA-262). */
  predicate IsSpace(c: char) {
    || c == '\t' || c == '\n' || c == '\U{000B}' || c == '\U{000C}' || c == '\r'
    || c == ' ' || c == '\U{00A0}' || c == '\U{1680}'
    || ('\U{2000}' <= c <= '\U{200A}')
    || c == '\U{2028}' || c == '\U{2029}' || c == '\U{202F}' || c == '\U{205F}'
    || c == '\U{3000}' || c == '\U{FEFF}'
  }

  /** The first position at or after i that does not hold white space (|s| if none). */
  function SkipSpace(s: string, i: nat): (k: nat)
    requires i <= |s|
    ensures i <= k <= |s|
    ensures forall j :: i <= j < k ==> IsSpace(s[j])
    ensures k < |s| ==> !IsSpace(s[k])
    decreases |s| - i
  {
    if i < |s| && IsSpace(s[i]) then SkipSpace(s, i + 1) else i
  }

  /** The end of s[lo..j] with its trailing white space removed. */
  function SkipSpaceBack(s: string, lo: nat, j: nat): (k: nat)
    requires lo <= j <= |s|
    ensures lo <= k <= j
    ensures forall m :: k <= m < j ==> IsSpace(s[m])
    ensures k > lo ==> !IsSpace(s[k - 1])
  {
    if j > lo && IsSpace(s[j - 1]) then SkipSpaceBack(s, lo, j - 1) else j
  }

  /** `s.trim()`: the longest infix of `s` that neither starts nor ends with
      white space, with only white space before and after it. */
  function Trim(s: string): (r: string)
    ensures exists lo, hi ::
      && 0 <= lo <= hi <= |s| && r == s[lo..hi]
      && (forall i :: 0 <= i < lo ==> IsSpace(s[i]))
      && (forall i :: hi <= i < |s| ==> IsSpace(s[i]))
    ensures r == [] || (!IsSpace(r[0]) && !IsSpace(r[|r| - 1]))
  {
    var lo := SkipSpace(s, 0);
    var hi := SkipSpaceBack(s, lo, |s|);
    assert hi > lo ==> s[lo..hi][0] == s[lo] && s[lo..hi][hi - lo - 1] == s[hi - 1];
    s[lo..hi]
  }

  /** Trimming a string that neither starts nor ends with white space changes nothing. */
  lemma TrimIdentity(s: string)
    requires s == [] || (!IsSpace(s[0]) && !IsSpace(s[|s| - 1]))
    ensures Trim(s) == s
  {
    assert s[0..|s|] == s;
  }

  /** `toUpperCase` on one character (the ASCII letters; see README). */
  function UpperChar(c: char): char {
    if 'a' <= c <= 'z' then (c as int - 32) as char else c
  }

  function ToUpper(s: string): (r: string)
    ensures |r| == |s|
    ensures forall i :: 0 <= i < |s| ==> r[i] == UpperChar(s[i])
  {
    if s == [] then [] else [UpperChar(s[0])] + ToUpper(s[1..])
  }

  /** Upper-casing twice is upper-casing once. */
  lemma ToUpperIdempotent(s: string)
    ensures ToUpper(ToUpper(s)) == ToUpper(s)
  {
  }

  /** `s.indexOf(c)`: the first position of `c`, or -1. */
  function IndexOf(s: string, c: char): (r: int)
    ensures -1 <= r < |s|
    ensures r == -1 <==> c !in s
    ensures r >= 0 ==> s[r] == c && c !in s[..r]
  {
    if s == [] then -1
    else if s[0] == c then 0
    else
      var k := IndexOf(s[1..], c);
      assert s[1..][..if k >= 0 then k else 0] == s[1..if k >= 0 then k + 1 else 1];
      if k == -1 then -1 else k + 1
  }

  /** `s.split(sep)` with a one-character separator. */
  function Split(s: string, sep: char): (parts: seq<string>)
    ensures |parts| >= 1
    ensures forall k :: 0 <= k < |parts| ==> sep !in parts[k]
    decreases |s|
  {
    var i := IndexOf(s, sep);
    if i == -1 then [s] else [s[..i]] + Split(s[i + 1..], sep)
  }

  /** A string that starts with a separator-free piece splits there first. */
  lemma SplitAfter(x: string, sep: char, rest: string)
    requires sep !in x
    ensures Split(x + [sep] + rest, sep) == [x] + Split(rest, sep)
  {
    var s := x + [sep] + rest;
    IndexOfAfter(x, sep, rest);
    assert s[..|x|] == x && s[|x| + 1..] == rest;
  }

  /** The first separator after a separator-free piece is the one right after it. */
  lemma {:induction false} IndexOfAfter(x: string, sep: char, rest: string)
    requires sep !in x
    ensures IndexOf(x + [sep] + rest, sep) == |x|
  {
    if x != [] {
      assert (x + [sep] + rest)[1..] == x[1..] + [sep] + rest;
      IndexOfAfter(x[1..], sep, rest);
    }
  }

  /** `parts.join(sep)`. */
  function Join(parts: seq<string>, sep: char): string {
    if parts == [] then []
    else if |parts| == 1 then parts[0]
    else parts[0] + [sep] + Join(parts[1..], sep)
  }

  /** Splitting loses nothing: joining the pieces gives the string back. */
  lemma {:induction false} SplitJoin(s: string, sep: char)
    ensures Join(Split(s, sep), sep) == s
    decreases |s|
  {
    var i := IndexOf(s, sep);
    if i != -1 {
      var rest := Split(s[i + 1..], sep);
      SplitJoin(s[i + 1..], sep);
      assert Split(s, sep) == [s[..i]] + rest;
      JoinCons(s[..i], rest, sep);
      SplitAt(s, i);
    }
  }

  /** Joining a piece in front of at least one more puts a separator between them. */
  lemma JoinCons(x: string, rest: seq<string>, sep: char)
    requires rest != []
    ensures Join([x] + rest, sep) == x + [sep] + Join(rest, sep)
  {
    assert ([x] + rest)[0] == x && ([x] + rest)[1..] == rest;
  }

  /** A string is the text before a position, the character there, and the text after. */
  lemma SplitAt(s: string, i: nat)
    requires i < |s|
    ensures s == s[..i] + [s[i]] + s[i + 1..]
  {
  }
}
