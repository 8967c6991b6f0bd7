/**
 Finding the closing brace of a JSON object inside a larger text, by counting braces outside strings.
 The texts scanned are those of RFC 8259: any whitespace, any strings with escapes, any nesting.
 */
module BraceScanners {
  import opened Wrappers

  /** Depth of open braces, and where in a string the scan stands. */
  datatype State = State(depth: int, inString: bool, escaped: bool)

  const START := State(0, false, false)

  function Step(s: State, c: char): State {
    if s.inString then
      if s.escaped then s.(escaped := false)
      else if c == '\\' then s.(escaped := true)
      else if c == '"' then s.(inString := false)
      else s
    else if c == '"' then s.(inString := true)
    else if c == '{' then s.(depth := s.depth + 1)
    else if c == '}' then s.(depth := s.depth - 1)
    else s
  }

  /** Reading c in state s closes the outermost brace. */
  predicate Closes(s: State, c: char) { !s.inString && c == '}' && s.depth == 1 }

  /** Characters read up to and including the closing brace. */
  function Scan(text: string, s: State): Option<nat> {
    if text == [] then None
    else if Closes(s, text[0]) then Some(1)
    else Shift(1, Scan(text[1..], Step(s, text[0])))
  }

  function Shift(n: nat, o: Option<nat>): Option<nat> {
    match o case None => None case Some(k) => Some(n + k)
  }

  /** The scanner of `_target_json_body`: the position after the closing brace, from the opening one at `start`. */
  method FindEnd(text: string, start: nat) returns (end: Option<nat>)
    requires start <= |text|
    ensures end == Shift(start, Scan(text[start..], START))
  {
    var depth, inString, escaped := 0, false, false;
    for index := start to |text|
      invariant Shift(start, Scan(text[start..], START)) == Shift(index, Scan(text[index..], State(depth, inString, escaped)))
    {
      var c := text[index];
      assert text[index..][0] == c && text[index..][1..] == text[index + 1..];
      if inString {
        if escaped {
          escaped := false;
        } else if c == '\\' {
          escaped := true;
        } else if c == '"' {
          inString := false;
        }
      } else if c == '"' {
        inString := true;
      } else if c == '{' {
        depth := depth + 1;
      } else if c == '}' {
        depth := depth - 1;
        if depth == 0 {
          return Some(index + 1);
        }
      }
    }
    return None;
  }

  // ---- what a scan finds in any text ------------------------------------------------------------------

  function After(text: string, k: nat, s: State): State
    requires k <= |text|
  {
    if k == 0 then s else Step(After(text, k - 1, s), text[k - 1])
  }

  predicate ClosesAt(text: string, k: nat, s: State)
    requires k < |text|
  {
    Closes(After(text, k, s), text[k])
  }

  lemma {:induction false} AfterFirst(text: string, k: nat, s: State)
    requires 0 < k <= |text|
    ensures After(text, k, s) == After(text[1..], k - 1, Step(s, text[0]))
  {
    if k > 1 {
      AfterFirst(text, k - 1, s);
    }
  }

  /** The scan stops at the first closing brace outside strings that balances the braces before it, and only there. */
  lemma {:induction false} StopsAtFirstBalance(text: string, s: State, n: nat)
    ensures Scan(text, s) == Some(n) <==>
              0 < n <= |text| && ClosesAt(text, n - 1, s) && forall k :: 0 <= k < n - 1 ==> !ClosesAt(text, k, s)
    decreases |text|
  {
    if text != [] && !Closes(s, text[0]) {
      var rest, t := text[1..], Step(s, text[0]);
      forall k | 0 < k < |text| ensures ClosesAt(text, k, s) <==> ClosesAt(rest, k - 1, t) {
        AfterFirst(text, k, s);
      }
      assert !ClosesAt(text, 0, s);
      if n > 0 {
        StopsAtFirstBalance(rest, t, n - 1);
        if Scan(text, s) == Some(n) {
          forall k | 0 <= k < n - 1 ensures !ClosesAt(text, k, s) {
            assert k > 0 ==> !ClosesAt(rest, k - 1, t);
          }
        }
        if 1 < n <= |text| && forall k :: 0 <= k < n - 1 ==> !ClosesAt(text, k, s) {
          forall k | 0 <= k < n - 2 ensures !ClosesAt(rest, k, t) {
            assert !ClosesAt(text, k + 1, s);
          }
        }
      }
    } else if text != [] {
      assert ClosesAt(text, 0, s);
    }
  }

  // ---- JSON texts ---------------------------------------------------------------------------------------

  /** A character of a string literal: itself, or a backslash and the character it escapes. `\u` digits are plain. */
  datatype Unit = Plain(c: char) | Escape(c: char)

  /** A value with the whitespace it is written with. Numbers and the three names are atoms. */
  datatype Json =
    | Atom(text: string)
    | Str(units: seq<Unit>)
    | Arr(lead: string, elements: Elements)
    | Obj(lead: string, members: Members)

  datatype Elements = NoElements | Element(value: Json, trail: string, lead: string, rest: Elements)

  datatype Members =
    | NoMembers
    | Member(key: seq<Unit>, beforeColon: string, afterColon: string, value: Json, trail: string, lead: string, rest: Members)

  predicate Blank(s: string) { forall c :: c in s ==> c in {' ', '\t', '\n', '\r'} }

  predicate AtomChar(c: char) { 'a' <= c <= 'z' || 'A' <= c <= 'Z' || '0' <= c <= '9' || c in {'+', '-', '.'} }

  predicate ValidUnits(u: seq<Unit>) { forall x :: x in u ==> x.Plain? ==> x.c != '"' && x.c != '\\' }

  predicate Valid(v: Json) {
    match v
    case Atom(text) => forall c :: c in text ==> AtomChar(c)
    case Str(units) => ValidUnits(units)
    case Arr(lead, elements) => Blank(lead) && ValidElements(elements)
    case Obj(lead, members) => Blank(lead) && ValidMembers(members)
  }

  predicate ValidElements(e: Elements) {
    e.Element? ==> Valid(e.value) && Blank(e.trail) && Blank(e.lead) && ValidElements(e.rest)
  }

  predicate ValidMembers(m: Members) {
    m.Member? ==>
      && ValidUnits(m.key) && Blank(m.beforeColon) && Blank(m.afterColon)
      && Valid(m.value) && Blank(m.trail) && Blank(m.lead) && ValidMembers(m.rest)
  }

  function PrintUnit(u: Unit): string {
    match u case Plain(c) => [c] case Escape(c) => ['\\', c]
  }

  function PrintUnits(u: seq<Unit>): string {
    if u == [] then "" else PrintUnit(u[0]) + PrintUnits(u[1..])
  }

  function PrintString(u: seq<Unit>): string { "\"" + PrintUnits(u) + "\"" }

  function Print(v: Json): string {
    match v
    case Atom(text) => text
    case Str(units) => PrintString(units)
    case Arr(lead, elements) => "[" + lead + PrintElements(elements) + "]"
    case Obj(lead, members) => "{" + lead + PrintMembers(members) + "}"
  }

  function PrintElements(e: Elements): string {
    match e
    case NoElements => ""
    case Element(value, trail, lead, rest) =>
      Print(value) + trail + (if rest.NoElements? then "" else "," + lead) + PrintElements(rest)
  }

  function PrintMembers(m: Members): string {
    match m
    case NoMembers => ""
    case Member(key, beforeColon, afterColon, value, trail, lead, rest) =>
      PrintString(key) + beforeColon + ":" + afterColon + Print(value) + trail
      + (if rest.NoMembers? then "" else "," + lead) + PrintMembers(rest)
  }

  /** Inside an object at depth d, the scan runs over s and comes out in the same state. */
  ghost predicate Passes(s: string, d: int) {
    forall rest: string :: PassesBefore(s, d, rest)
  }

  predicate PassesBefore(s: string, d: int, rest: string) {
    Scan(s + rest, State(d, false, false)) == Shift(|s|, Scan(rest, State(d, false, false)))
  }

  lemma PassBoth(s: string, t: string, d: int)
    requires Passes(s, d) && Passes(t, d)
    ensures Passes(s + t, d)
  {
    forall rest: string ensures PassesBefore(s + t, d, rest) {
      assert PassesBefore(s, d, t + rest) && PassesBefore(t, d, rest);
      assert s + t + rest == s + (t + rest);
    }
  }

  predicate Neutral(c: char) { c != '"' && c != '{' && c != '}' }

  lemma {:induction false} NeutralPasses(s: string, d: int)
    requires forall c :: c in s ==> Neutral(c)
    ensures Passes(s, d)
  {
    forall rest: string ensures PassesBefore(s, d, rest) {
      NeutralPassesBefore(s, d, rest);
    }
  }

  lemma {:induction false} NeutralPassesBefore(s: string, d: int, rest: string)
    requires forall c :: c in s ==> Neutral(c)
    ensures PassesBefore(s, d, rest)
  {
    if s == [] {
      assert s + rest == rest;
    } else {
      NeutralPassesBefore(s[1..], d, rest);
      assert (s + rest)[1..] == s[1..] + rest;
      assert Neutral(s[0]);
    }
  }

  lemma ScanOne(c: char, rest: string, s: State)
    ensures Scan([c] + rest, s) == if Closes(s, c) then Some(1) else Shift(1, Scan(rest, Step(s, c)))
  {
    assert ([c] + rest)[1..] == rest;
  }

  /** Inside a string, braces, quotes and backslashes as data do not count. */
  lemma {:induction false} UnitsPass(u: seq<Unit>, d: int, rest: string)
    requires ValidUnits(u)
    ensures Scan(PrintUnits(u) + rest, State(d, true, false)) == Shift(|PrintUnits(u)|, Scan(rest, State(d, true, false)))
  {
    hide Scan, PrintUnit;
    if u == [] {
      assert PrintUnits(u) + rest == rest;
    } else {
      UnitsPass(u[1..], d, rest);
      var tail := PrintUnits(u[1..]) + rest;
      UnitPasses(u[0], d, tail);
      assert u[0] in u && PrintUnits(u) + rest == PrintUnit(u[0]) + tail;
    }
  }

  lemma UnitPasses(u: Unit, d: int, tail: string)
    requires u.Plain? ==> u.c != '"' && u.c != '\\'
    ensures Scan(PrintUnit(u) + tail, State(d, true, false)) == Shift(|PrintUnit(u)|, Scan(tail, State(d, true, false)))
  {
  }

  lemma StringPasses(u: seq<Unit>, d: int)
    requires ValidUnits(u)
    ensures Passes(PrintString(u), d)
  {
    forall rest: string ensures PassesBefore(PrintString(u), d, rest) {
      var s := PrintString(u) + rest;
      assert s[0] == '"' && s[1..] == PrintUnits(u) + ("\"" + rest);
      UnitsPass(u, d, "\"" + rest);
      assert ("\"" + rest)[1..] == rest;
    }
  }

  lemma {:induction false} ValuePasses(v: Json, d: nat)
    requires Valid(v) && d > 0
    ensures Passes(Print(v), d)
    decreases v, 2
  {
    hide Passes;
    match v
    case Atom(text) =>
      NeutralPasses(text, d);
    case Str(units) =>
      StringPasses(units, d);
    case Arr(lead, elements) =>
      NeutralPasses("[" + lead, d);
      ElementsPass(elements, d);
      NeutralPasses("]", d);
      PassBoth("[" + lead, PrintElements(elements), d);
      PassBoth("[" + lead + PrintElements(elements), "]", d);
    case Obj(lead, members) =>
      ObjectBody(lead, members, d + 1);
      ObjectPasses(lead, members, d);
  }

  lemma {:induction false} ElementsPass(e: Elements, d: nat)
    requires ValidElements(e) && d > 0
    ensures Passes(PrintElements(e), d)
    decreases e, 0
  {
    hide Passes;
    match e
    case NoElements => NeutralPasses("", d);
    case Element(value, trail, lead, rest) =>
      var between := if rest.NoElements? then "" else "," + lead;
      ValuePasses(value, d);
      NeutralPasses(trail, d);
      NeutralPasses(between, d);
      ElementsPass(rest, d);
      PassBoth(Print(value), trail, d);
      PassBoth(Print(value) + trail, between, d);
      PassBoth(Print(value) + trail + between, PrintElements(rest), d);
  }

  lemma {:induction false} MembersPass(m: Members, d: nat)
    requires ValidMembers(m) && d > 0
    ensures Passes(PrintMembers(m), d)
    decreases m, 0
  {
    hide Passes;
    match m
    case NoMembers => NeutralPasses("", d);
    case Member(key, beforeColon, afterColon, value, trail, lead, rest) =>
      var between := if rest.NoMembers? then "" else "," + lead;
      StringPasses(key, d);
      NeutralPasses(beforeColon, d);
      NeutralPasses(":", d);
      NeutralPasses(afterColon, d);
      ValuePasses(value, d);
      NeutralPasses(trail, d);
      NeutralPasses(between, d);
      MembersPass(rest, d);
      var p := PrintString(key);
      PassBoth(p, beforeColon, d);
      PassBoth(p + beforeColon, ":", d);
      PassBoth(p + beforeColon + ":", afterColon, d);
      PassBoth(p + beforeColon + ":" + afterColon, Print(value), d);
      PassBoth(p + beforeColon + ":" + afterColon + Print(value), trail, d);
      PassBoth(p + beforeColon + ":" + afterColon + Print(value) + trail, between, d);
      PassBoth(p + beforeColon + ":" + afterColon + Print(value) + trail + between, PrintMembers(rest), d);
  }

  lemma {:induction false} ObjectBody(lead: string, members: Members, d: nat)
    requires Blank(lead) && ValidMembers(members) && d > 0
    ensures Passes(lead + PrintMembers(members), d)
    decreases members, 1
  {
    hide Passes;
    NeutralPasses(lead, d);
    MembersPass(members, d);
    PassBoth(lead, PrintMembers(members), d);
  }

  lemma Bracing(body: string, rest: string)
    ensures "{" + body + "}" + rest == ['{'] + (body + (['}'] + rest))
  {
  }

  /** Opening a brace, passing over what is inside and closing it. */
  lemma Braced(body: string, d: int, rest: string)
    requires d >= 0 && PassesBefore(body, d + 1, ['}'] + rest)
    ensures Scan("{" + body + "}" + rest, State(d, false, false)) ==
      if d == 0 then Some(|body| + 2) else Shift(|body| + 2, Scan(rest, State(d, false, false)))
  {
    hide Scan;
    Bracing(body, rest);
    ScanOne('{', body + (['}'] + rest), State(d, false, false));
    ScanOne('}', rest, State(d + 1, false, false));
  }

  /** An object inside an object leaves the depth as it was. */
  lemma ObjectPasses(lead: string, members: Members, d: nat)
    requires d > 0 && Passes(lead + PrintMembers(members), d + 1)
    ensures Passes(Print(Obj(lead, members)), d)
  {
    var body := lead + PrintMembers(members);
    PrintedObject(lead, members);
    forall rest: string ensures PassesBefore(Print(Obj(lead, members)), d, rest) {
      hide Scan, PrintMembers, Print;
      assert PassesBefore(body, d + 1, ['}'] + rest);
      Braced(body, d, rest);
    }
  }

  lemma PrintedObject(lead: string, members: Members)
    ensures Print(Obj(lead, members)) == "{" + (lead + PrintMembers(members)) + "}"
  {
  }

  /**
   For every JSON object, however printed, and whatever follows it, the scan stops exactly after its closing brace.
   */
  lemma ScanFindsObjectEnd(lead: string, members: Members, suffix: string)
    requires Valid(Obj(lead, members))
    ensures Scan(Print(Obj(lead, members)) + suffix, START) == Some(|Print(Obj(lead, members))|)
  {
    var body := lead + PrintMembers(members);
    ObjectBody(lead, members, 1);
    PrintedObject(lead, members);
    assert PassesBefore(body, 1, ['}'] + suffix);
    hide Scan, PrintMembers, Print, Valid, Passes, PassesBefore;
    Braced(body, 0, suffix);
  }
}
