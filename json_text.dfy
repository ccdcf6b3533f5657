/**
 * The flat JSON object shape the node sends: string members written between
 * double quotes with no escaping, numeric members written as bare text.
 * The reader here is the partner of the writer: it recovers the members, in
 * order, from the text the writer produced.
 */
module JsonText {
  import opened Wrappers

  datatype Value = Text(text: string) | Number(lexeme: string)

  datatype Member = Member(key: string, value: Value)

  /** No character of s is one of the stop characters. */
  predicate NoneIn(s: string, stops: set<char>) {
    forall i :: 0 <= i < |s| ==> s[i] !in stops
  }

  /** Bare text that a reader can tell apart from a quoted string and from the next member. */
  predicate IsNumberLexeme(t: string) {
    |t| > 0 && t[0] != '"' && NoneIn(t, {',', '}'})
  }

  predicate WellFormedValue(v: Value) {
    match v
    case Text(t) => '"' !in t
    case Number(t) => IsNumberLexeme(t)
  }

  predicate WellFormedMember(m: Member) {
    '"' !in m.key && WellFormedValue(m.value)
  }

  function Keys(ms: seq<Member>): (ks: seq<string>)
    ensures |ks| == |ms| && forall i :: 0 <= i < |ms| ==> ks[i] == ms[i].key
  {
    if ms == [] then [] else [ms[0].key] + Keys(ms[1..])
  }

  // ---- Writer ----

  function EncodeValue(v: Value): string {
    match v
    case Text(t) => "\"" + t + "\""
    case Number(t) => t
  }

  function EncodeMember(m: Member): string {
    "\"" + m.key + "\":" + EncodeValue(m.value)
  }

  /** The members separated by commas, followed by the closing brace. */
  function EncodeMembers(ms: seq<Member>): string
    requires |ms| > 0
    decreases |ms|
  {
    if |ms| == 1 then EncodeMember(ms[0]) + "}"
    else EncodeMember(ms[0]) + "," + EncodeMembers(ms[1..])
  }

  function EncodeObject(ms: seq<Member>): string
    requires |ms| > 0
  {
    "{" + EncodeMembers(ms)
  }

  // ---- Reader ----

  /** Splits s at its first stop character: the text before it, the stop, the text after. */
  function SplitAt(s: string, stops: set<char>): (r: Option<(string, char, string)>)
    ensures r.Some? ==> s == r.value.0 + [r.value.1] + r.value.2
    ensures r.Some? ==> r.value.1 in stops && NoneIn(r.value.0, stops)
    ensures r.None? ==> NoneIn(s, stops)
  {
    if s == [] then None
    else if s[0] in stops then Some(([], s[0], s[1..]))
    else match SplitAt(s[1..], stops)
      case None => None
      case Some((a, c, b)) => Some(([s[0]] + a, c, b))
  }

  /** Reads one value and the ',' or '}' that ends it. */
  function ParseValue(s: string): (r: Option<(Value, char, string)>)
    ensures r.Some? ==> |r.value.2| < |s| && (r.value.1 == ',' || r.value.1 == '}')
  {
    if |s| > 0 && s[0] == '"' then
      match SplitAt(s[1..], {'"'})
      case None => None
      case Some((t, _, rest)) =>
        if |rest| > 0 && (rest[0] == ',' || rest[0] == '}') then Some((Text(t), rest[0], rest[1..]))
        else None
    else
      match SplitAt(s, {',', '}'})
      case None => None
      case Some((t, c, rest)) => if |t| > 0 then Some((Number(t), c, rest)) else None
  }

  /** Reads one "key":value member and the ',' or '}' that ends it. */
  function ParseMember(s: string): (r: Option<(Member, char, string)>)
    ensures r.Some? ==> |r.value.2| < |s| && (r.value.1 == ',' || r.value.1 == '}')
  {
    if |s| > 0 && s[0] == '"' then
      match SplitAt(s[1..], {'"'})
      case None => None
      case Some((k, _, rest)) =>
        if |rest| > 0 && rest[0] == ':' then
          match ParseValue(rest[1..])
          case None => None
          case Some((v, c, tail)) => Some((Member(k, v), c, tail))
        else None
    else None
  }

  /** Reads the members after the opening brace, up to a closing brace that ends the text. */
  function ParseMembers(s: string): (r: Option<seq<Member>>)
    ensures r.Some? ==> |r.value| > 0
    decreases |s|
  {
    match ParseMember(s)
    case None => None
    case Some((m, c, rest)) =>
      if c == '}' then (if rest == [] then Some([m]) else None)
      else match ParseMembers(rest)
        case None => None
        case Some(ms) => Some([m] + ms)
  }

  function ParseObject(s: string): (r: Option<seq<Member>>)
    ensures r.Some? ==> |r.value| > 0 && |s| > 0 && s[0] == '{'
  {
    if |s| > 0 && s[0] == '{' then ParseMembers(s[1..]) else None
  }

  // ---- Round trip ----

  lemma {:induction false} SplitAtFirstStop(a: string, c: char, b: string, stops: set<char>)
    requires NoneIn(a, stops) && c in stops
    ensures SplitAt(a + [c] + b, stops) == Some((a, c, b))
    decreases |a|
  {
    var s := a + [c] + b;
    if a == [] {
      assert s == [c] + b;
    } else {
      assert s[0] == a[0];
      assert s[1..] == a[1..] + [c] + b;
      SplitAtFirstStop(a[1..], c, b, stops);
      assert [a[0]] + a[1..] == a;
    }
  }

  lemma NoQuoteIn(t: string)
    requires '"' !in t
    ensures NoneIn(t, {'"'})
  {
  }

  lemma ValueRoundTrip(v: Value, c: char, tail: string)
    requires WellFormedValue(v) && (c == ',' || c == '}')
    ensures ParseValue(EncodeValue(v) + [c] + tail) == Some((v, c, tail))
  {
    var s := EncodeValue(v) + [c] + tail;
    match v
    case Text(t) =>
      assert s[0] == '"';
      assert s[1..] == t + ['"'] + ([c] + tail);
      NoQuoteIn(t);
      SplitAtFirstStop(t, '"', [c] + tail, {'"'});
    case Number(t) =>
      assert s == t + [c] + tail;
      assert s[0] == t[0];
      SplitAtFirstStop(t, c, tail, {',', '}'});
  }

  lemma MemberRoundTrip(m: Member, c: char, tail: string)
    requires WellFormedMember(m) && (c == ',' || c == '}')
    ensures ParseMember(EncodeMember(m) + [c] + tail) == Some((m, c, tail))
  {
    var s := EncodeMember(m) + [c] + tail;
    var after := EncodeValue(m.value) + [c] + tail;
    assert s[0] == '"';
    assert s[1..] == m.key + ['"'] + ([':'] + after);
    NoQuoteIn(m.key);
    SplitAtFirstStop(m.key, '"', [':'] + after, {'"'});
    assert ([':'] + after)[1..] == after;
    ValueRoundTrip(m.value, c, tail);
  }

  /** The reader recovers every well-formed nonempty member list, in order. */
  lemma {:induction false} MembersRoundTrip(ms: seq<Member>)
    requires |ms| > 0 && forall i :: 0 <= i < |ms| ==> WellFormedMember(ms[i])
    ensures ParseMembers(EncodeMembers(ms)) == Some(ms)
    decreases |ms|
  {
    if |ms| == 1 {
      assert EncodeMembers(ms) == EncodeMember(ms[0]) + ['}'] + [];
      MemberRoundTrip(ms[0], '}', []);
      assert ms == [ms[0]];
    } else {
      var rest := EncodeMembers(ms[1..]);
      assert EncodeMembers(ms) == EncodeMember(ms[0]) + [','] + rest;
      MemberRoundTrip(ms[0], ',', rest);
      MembersRoundTrip(ms[1..]);
      assert [ms[0]] + ms[1..] == ms;
    }
  }

  lemma ObjectRoundTrip(ms: seq<Member>)
    requires |ms| > 0 && forall i :: 0 <= i < |ms| ==> WellFormedMember(ms[i])
    ensures ParseObject(EncodeObject(ms)) == Some(ms)
  {
    assert EncodeObject(ms)[1..] == EncodeMembers(ms);
    MembersRoundTrip(ms);
  }

  // ---- Regrouping the writer's text ----
  // The writer nests its concatenations one way and a fixed layout another;
  // these lemmas move between the two one member at a time. `lead` is the
  // opening brace or the comma written just before a member. They state no
  // property of the node; they split the payload proof into steps small
  // enough for the solver.

  lemma ConcatAssoc(a: string, b: string, c: string)
    ensures a + b + c == a + (b + c)
  {
  }

  lemma UnfoldAfter(lead: string, m: Member, rest: seq<Member>)
    requires |rest| > 0
    ensures lead + EncodeMembers([m] + rest) == (lead + EncodeMember(m)) + ("," + EncodeMembers(rest))
  {
    var ms := [m] + rest;
    assert ms[0] == m && ms[1..] == rest;
    var a, b := EncodeMember(m), EncodeMembers(rest);
    assert EncodeMembers(ms) == a + "," + b;
    ConcatAssoc(a, ",", b);
    ConcatAssoc(lead, a, "," + b);
  }

  lemma TextMemberAfter(lead: string, key: string, v: string)
    ensures lead + EncodeMember(Member(key, Text(v))) == (lead + "\"" + key + "\":\"") + v + "\""
  {
  }

  lemma NumberMemberAfter(lead: string, key: string, v: string)
    ensures lead + EncodeMember(Member(key, Number(v))) == (lead + "\"" + key + "\":") + v
  {
  }

  lemma RegroupText(head: string, v: string, r: string)
    ensures head + v + "\"" + r == head + (v + ("\"" + r))
  {
  }

  lemma TextFirst(lead: string, key: string, v: string, rest: seq<Member>)
    requires |rest| > 0
    ensures lead + EncodeMembers([Member(key, Text(v))] + rest)
         == (lead + "\"" + key + "\":\"") + (v + ("\"" + ("," + EncodeMembers(rest))))
  {
    UnfoldAfter(lead, Member(key, Text(v)), rest);
    TextMemberAfter(lead, key, v);
    RegroupText(lead + "\"" + key + "\":\"", v, "," + EncodeMembers(rest));
  }

  lemma NumberFirst(lead: string, key: string, v: string, rest: seq<Member>)
    requires |rest| > 0
    ensures lead + EncodeMembers([Member(key, Number(v))] + rest)
         == (lead + "\"" + key + "\":") + (v + ("," + EncodeMembers(rest)))
  {
    UnfoldAfter(lead, Member(key, Number(v)), rest);
    NumberMemberAfter(lead, key, v);
    ConcatAssoc(lead + "\"" + key + "\":", v, "," + EncodeMembers(rest));
  }

  lemma TextOnly(lead: string, key: string, v: string)
    ensures lead + EncodeMembers([Member(key, Text(v))]) == (lead + "\"" + key + "\":\"") + (v + "\"}")
  {
  }
}
