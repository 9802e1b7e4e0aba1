/**
 The flat JSON objects produced by the web server: `{`, `"key":value` members separated by
 single commas, `}`. Values are written as bare text (numbers and the tokens `true`/`false`).
 The parser is the partner of the renderer: it reads back exactly the members written.
 */
module Json {
  import opened Wrappers

  datatype Member = Member(key: string, value: string)

  /** `"key":value` */
  function RenderMember(m: Member): string {
    "\"" + m.key + "\":" + m.value
  }

  /** The members joined by single commas, with no trailing comma. */
  function RenderMembers(ms: seq<Member>): string
    decreases |ms|
  {
    if |ms| == 0 then ""
    else if |ms| == 1 then RenderMember(ms[0])
    else RenderMember(ms[0]) + "," + RenderMembers(ms[1..])
  }

  /** Unrolls one step of `RenderMembers` on a suffix of `ms`. */
  lemma RenderMembersStep(ms: seq<Member>, k: nat)
    requires k + 1 < |ms|
    ensures RenderMembers(ms[k..]) == RenderMember(ms[k]) + "," + RenderMembers(ms[k + 1..])
  {
    assert ms[k..][1..] == ms[k + 1..];
  }

  function Render(ms: seq<Member>): string {
    "{" + RenderMembers(ms) + "}"
  }

  /** The unquoted boolean token. */
  function BoolToken(b: bool): string {
    if b then "true" else "false"
  }

  /** Reads a bare boolean token; anything else, a quoted token included, is rejected. */
  function ParseBool(s: string): (r: Option<bool>)
    ensures r.Some? ==> s == BoolToken(r.value)
  {
    if s == "true" then Some(true)
    else if s == "false" then Some(false)
    else None
  }

  /** Each boolean's token reads back as that boolean. */
  lemma BoolTokenRoundTrip(b: bool)
    ensures ParseBool(BoolToken(b)) == Some(b)
  {
  }

  /** The keys of a member list, in order. */
  function Keys(ms: seq<Member>): seq<string> {
    seq(|ms|, i requires 0 <= i < |ms| => ms[i].key)
  }

  /** The value of the first member with key `k`. */
  function Lookup(ms: seq<Member>, k: string): Option<string>
    decreases |ms|
  {
    if |ms| == 0 then None
    else if ms[0].key == k then Some(ms[0].value)
    else Lookup(ms[1..], k)
  }

  /** The value of member `k` read as a bare boolean token. */
  function LookupBool(ms: seq<Member>, k: string): (r: Option<bool>)
    ensures r.Some? ==> Lookup(ms, k) == Some(BoolToken(r.value))
  {
    var v :- Lookup(ms, k);
    ParseBool(v)
  }

  /** With distinct keys, a member holding a boolean token reads back as that boolean. */
  lemma LookupBoolDistinct(ms: seq<Member>, i: nat, b: bool)
    requires DistinctKeys(ms)
    requires i < |ms| && ms[i].value == BoolToken(b)
    ensures LookupBool(ms, ms[i].key) == Some(b)
  {
    LookupDistinct(ms, i);
  }

  /** No key occurs twice. */
  predicate DistinctKeys(ms: seq<Member>) {
    forall i, j :: 0 <= i < j < |ms| ==> ms[i].key != ms[j].key
  }

  /** With distinct keys, looking up the key of a member finds that member's value. */
  lemma {:induction false} LookupDistinct(ms: seq<Member>, i: nat)
    requires DistinctKeys(ms)
    requires i < |ms|
    ensures Lookup(ms, ms[i].key) == Some(ms[i].value)
    decreases i
  {
    if i > 0 {
      assert ms[0].key != ms[i].key;
      assert ms[1..][i - 1] == ms[i];
      LookupDistinct(ms[1..], i - 1);
    }
  }

  /** The position of the first `c` in `s`, or `|s|` when there is none. */
  function IndexOf(s: string, c: char): (i: nat)
    ensures i <= |s|
    ensures i < |s| ==> s[i] == c
    ensures forall j :: 0 <= j < i ==> s[j] != c
    decreases |s|
  {
    if |s| == 0 then 0
    else if s[0] == c then 0
    else 1 + IndexOf(s[1..], c)
  }

  /** Reads one `"key":value` member; the key runs to the next double quote. */
  function ParseMember(s: string): Option<Member> {
    if |s| < 1 || s[0] != '"' then None
    else
      var j := 1 + IndexOf(s[1..], '"');
      if j + 1 < |s| && s[j + 1] == ':' then Some(Member(s[1..j], s[j + 2..]))
      else None
  }

  /** Reads one or more comma-separated members; an empty member (e.g. a trailing comma) is rejected. */
  function ParseNonEmptyMembers(s: string): Option<seq<Member>>
    decreases |s|
  {
    var i := IndexOf(s, ',');
    if i == |s| then
      var m :- ParseMember(s);
      Some([m])
    else
      var m :- ParseMember(s[..i]);
      var rest :- ParseNonEmptyMembers(s[i + 1..]);
      Some([m] + rest)
  }

  /** Reads a whole object. */
  function Parse(s: string): Option<seq<Member>> {
    if |s| < 2 || s[0] != '{' || s[|s| - 1] != '}' then None
    else
      var inner := s[1..|s| - 1];
      if inner == "" then Some([]) else ParseNonEmptyMembers(inner)
  }

  /** A member the flat format can carry: no double quote or comma in the key, no comma in the value. */
  predicate Representable(m: Member) {
    '"' !in m.key && ',' !in m.key && ',' !in m.value
  }

  lemma MemberRoundTrip(m: Member)
    requires Representable(m)
    ensures ',' !in RenderMember(m)
    ensures ParseMember(RenderMember(m)) == Some(m)
  {
    var s := RenderMember(m);
    assert s[1..] == m.key + ['"'] + (":" + m.value);
    IndexOfFirstOccurrence(m.key, '"', ":" + m.value);
    var j := 1 + |m.key|;
    assert s[j + 1] == ':';
    assert s[1..j] == m.key;
    assert s[j + 2..] == m.value;
  }

  /** The first `c` in `a + [c] + b` is right after `a` when `a` has none. */
  lemma IndexOfFirstOccurrence(a: string, c: char, b: string)
    requires c !in a
    ensures IndexOf(a + [c] + b, c) == |a|
  {
    var s := a + [c] + b;
    assert s[|a|] == c;
    assert forall j :: 0 <= j < |a| ==> s[j] == a[j];
  }

  lemma IndexOfAbsent(s: string, c: char)
    requires c !in s
    ensures IndexOf(s, c) == |s|
  {
  }

  /** A comma-free member followed by a comma: the parser reads the member, then the rest. */
  lemma ParseNonEmptyStep(h: string, rest: string, m: Member, tail: seq<Member>)
    requires ',' !in h
    requires ParseMember(h) == Some(m) && ParseNonEmptyMembers(rest) == Some(tail)
    ensures ParseNonEmptyMembers(h + "," + rest) == Some([m] + tail)
  {
    var s := h + "," + rest;
    IndexOfFirstOccurrence(h, ',', rest);
    assert s[..|h|] == h;
    assert s[|h| + 1..] == rest;
  }

  lemma {:induction false} NonEmptyMembersRoundTrip(ms: seq<Member>)
    requires |ms| > 0
    requires forall i :: 0 <= i < |ms| ==> Representable(ms[i])
    ensures ParseNonEmptyMembers(RenderMembers(ms)) == Some(ms)
    decreases |ms|
  {
    var h := RenderMember(ms[0]);
    MemberRoundTrip(ms[0]);
    if |ms| == 1 {
      assert RenderMembers(ms) == h;
      IndexOfAbsent(h, ',');
      assert [ms[0]] == ms;
    } else {
      assert RenderMembers(ms) == h + "," + RenderMembers(ms[1..]);
      NonEmptyMembersRoundTrip(ms[1..]);
      ParseNonEmptyStep(h, RenderMembers(ms[1..]), ms[0], ms[1..]);
      assert [ms[0]] + ms[1..] == ms;
    }
  }

  /** Parsing a rendered object returns exactly the members rendered, in order. */
  lemma RenderParseRoundTrip(ms: seq<Member>)
    requires forall i :: 0 <= i < |ms| ==> Representable(ms[i])
    ensures Parse(Render(ms)) == Some(ms)
  {
    var s := Render(ms);
    assert s[1..|s| - 1] == RenderMembers(ms);
    if |ms| > 0 {
      NonEmptyMembersRoundTrip(ms);
      assert RenderMember(ms[0]) != "";
      assert RenderMembers(ms) != "" by {
        assert RenderMembers(ms)[0] == '"';
      }
    }
  }
}
