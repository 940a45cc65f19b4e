/** Rendering of plan templates: the loop that replaces one `{key}` after the other
    (planning/generator.py:42-47) against simultaneous substitution. */
module Templates {
  import opened Wrappers

  /** Python's `str.replace` for a non-empty pattern: leftmost matches, no overlap. */
  function Replace(s: string, pattern: string, value: string): string
    requires pattern != ""
    decreases |s|
  {
    if |s| < |pattern| then s
    else if s[..|pattern|] == pattern then value + Replace(s[|pattern|..], pattern, value)
    else [s[0]] + Replace(s[1..], pattern, value)
  }

  function Pattern(key: string): string {
    "{" + key + "}"
  }

  function RenderAll(s: string, params: seq<(string, string)>): string
    decreases |params|
  {
    if params == [] then s else RenderAll(Replace(s, Pattern(params[0].0), params[0].1), params[1..])
  }

  /** `render` on a string. */
  method Render(s: string, params: seq<(string, string)>) returns (r: string)
    ensures r == RenderAll(s, params)
  {
    r := s;
    var i := 0;
    while i < |params|
      invariant 0 <= i <= |params| && RenderAll(r, params[i..]) == RenderAll(s, params)
    {
      var (k, v) := params[i];
      assert params[i..][1..] == params[i + 1..];
      r := Replace(r, "{" + k + "}", v);
      i := i + 1;
    }
  }

  // ----- templates as text with holes ---------------------------------------------------

  datatype Piece = Lit(text: string) | Hole(key: string)

  function Show(p: Piece): string {
    if p.Lit? then p.text else Pattern(p.key)
  }

  function ShowAll(ps: seq<Piece>): string {
    if ps == [] then "" else Show(ps[0]) + ShowAll(ps[1..])
  }

  /** An opening brace only ever opens a hole, and a hole ends at its first brace. */
  predicate Plain(ps: seq<Piece>) {
    forall i :: 0 <= i < |ps| ==> if ps[i].Lit? then '{' !in ps[i].text else '{' !in ps[i].key && '}' !in ps[i].key
  }

  predicate PlainParams(params: seq<(string, string)>) {
    && (forall i :: 0 <= i < |params| ==> '{' !in params[i].0 && '}' !in params[i].0 && '{' !in params[i].1)
    && (forall i, j :: 0 <= i < j < |params| ==> params[i].0 != params[j].0)
  }

  function Lookup(params: seq<(string, string)>, key: string): Option<string> {
    if params == [] then None else if params[0].0 == key then Some(params[0].1) else Lookup(params[1..], key)
  }

  function Fill(p: Piece, params: seq<(string, string)>): Piece {
    if p.Hole? && Lookup(params, p.key).Some? then Lit(Lookup(params, p.key).value) else p
  }

  /** Every hole is filled at once; a hole without a parameter stays. */
  function FillAll(ps: seq<Piece>, params: seq<(string, string)>): seq<Piece> {
    seq(|ps|, i requires 0 <= i < |ps| => Fill(ps[i], params))
  }

  // ----- one replacement ------------------------------------------------------------------

  /** No occurrence of the pattern begins in the text, whatever follows it: it neither contains the
      pattern nor ends with a part of it. */
  predicate Clean(text: string, pattern: string) {
    forall i :: 0 <= i < |text| ==> !Begins(text, pattern, i)
  }

  predicate Begins(text: string, pattern: string, i: nat)
    requires i < |text|
  {
    pattern <= text[i..] || text[i..] <= pattern
  }

  lemma PlainIsClean(text: string, key: string)
    requires '{' !in text
    ensures Clean(text, Pattern(key))
  {
    forall i | 0 <= i < |text| ensures !Begins(text, Pattern(key), i) {
      assert text[i..][0] == text[i] && text[i] in text;
    }
  }

  lemma NoMatchAtHead(text: string, rest: string, pattern: string)
    requires !(pattern <= text) && !(text <= pattern) && |pattern| <= |text + rest|
    ensures (text + rest)[..|pattern|] != pattern
  {
    var head := (text + rest)[..|pattern|];
    if |pattern| <= |text| { assert head == text[..|pattern|]; } else { assert head[..|text|] == text; }
  }

  lemma CleanTail(text: string, pattern: string)
    requires text != "" && Clean(text, pattern)
    ensures Clean(text[1..], pattern)
  {
    forall i | 0 <= i < |text[1..]| ensures !Begins(text[1..], pattern, i) {
      assert !Begins(text, pattern, i + 1) && text[1..][i..] == text[i + 1..];
    }
  }

  /** Clean text is passed over. */
  lemma {:induction false} ReplaceSkips(text: string, rest: string, key: string, value: string)
    requires Clean(text, Pattern(key))
    ensures Replace(text + rest, Pattern(key), value) == text + Replace(rest, Pattern(key), value)
  {
    var s, pattern := text + rest, Pattern(key);
    if text == "" {
      assert s == rest;
    } else if |s| < |pattern| {
      assert |rest| < |pattern|;
    } else {
      assert !Begins(text, pattern, 0) && text[0..] == text;
      NoMatchAtHead(text, rest, pattern);
      ReplaceStep(s, pattern, value);
      assert s[1..] == text[1..] + rest;
      CleanTail(text, pattern);
      ReplaceSkips(text[1..], rest, key, value);
      assert text == [text[0]] + text[1..] && s[0] == text[0];
      assert [text[0]] + (text[1..] + Replace(rest, pattern, value)) == text + Replace(rest, pattern, value);
    }
  }

  lemma ReplaceStep(s: string, pattern: string, value: string)
    requires pattern != "" && |pattern| <= |s| && s[..|pattern|] != pattern
    ensures Replace(s, pattern, value) == [s[0]] + Replace(s[1..], pattern, value)
  {
  }

  lemma ReplaceHole(hole: string, rest: string, key: string, value: string)
    requires '{' !in hole && '}' !in hole && '{' !in key && '}' !in key
    ensures Replace(Pattern(hole) + rest, Pattern(key), value)
         == (if hole == key then value else Pattern(hole)) + Replace(rest, Pattern(key), value)
  {
    var s, pattern := Pattern(hole) + rest, Pattern(key);
    if hole == key {
      assert s[..|pattern|] == pattern && s[|pattern|..] == rest;
    } else {
      if |pattern| <= |s| { NotThisHole(hole, rest, key); }
      assert s == ['{'] + ((hole + "}") + rest);
      PlainIsClean(hole + "}", key);
      ReplaceSkips(hole + "}", rest, key, value);
      assert s[1..] == (hole + "}") + rest;
      if |s| < |pattern| {
        assert s == Pattern(hole) + rest && |rest| < |pattern|;
      } else {
        assert Pattern(hole) == ['{'] + (hole + "}");
        assert Replace(s, pattern, value) == ['{'] + ((hole + "}") + Replace(rest, pattern, value));
      }
    }
  }

  /** A pattern matches at a hole only if it is that hole's. */
  lemma NotThisHole(hole: string, rest: string, key: string)
    requires '{' !in hole && '}' !in hole && '{' !in key && '}' !in key && hole != key
    requires |Pattern(key)| <= |Pattern(hole) + rest|
    ensures (Pattern(hole) + rest)[..|Pattern(key)|] != Pattern(key)
  {
    var i := FirstDifference(hole, key);
    var s, pattern := Pattern(hole) + rest, Pattern(key);
    assert s[i + 1] == (hole + "}")[i] && pattern[i + 1] == (key + "}")[i];
    assert s[..|pattern|][i + 1] != pattern[i + 1];
  }

  lemma {:induction false} FirstDifference(hole: string, key: string) returns (i: nat)
    requires '}' !in hole && '}' !in key && hole != key
    ensures i <= |hole| && i <= |key| && (hole + "}")[i] != (key + "}")[i]
  {
    if hole == "" {
      assert key[0] in key;
      i := 0;
    } else if key == "" || hole[0] != key[0] {
      assert hole[0] in hole;
      i := 0;
    } else {
      assert hole == [hole[0]] + hole[1..] && key == [key[0]] + key[1..];
      i := FirstDifference(hole[1..], key[1..]);
      assert (hole + "}")[i + 1] == (hole[1..] + "}")[i] && (key + "}")[i + 1] == (key[1..] + "}")[i];
      i := i + 1;
    }
  }

  lemma LookupOne(key: string, value: string, other: string)
    ensures Lookup([(key, value)], other) == if key == other then Some(value) else None
  {
    var one := [(key, value)];
    assert one[0] == (key, value) && one[1..] == [] && Lookup([], other) == None;
  }

  /** The text of the pieces is clean for the key, and their holes are plain. */
  predicate CleanFor(ps: seq<Piece>, key: string) {
    forall i :: 0 <= i < |ps| ==>
      if ps[i].Lit? then Clean(ps[i].text, Pattern(key)) else '{' !in ps[i].key && '}' !in ps[i].key
  }

  lemma PlainIsCleanFor(ps: seq<Piece>, key: string)
    requires Plain(ps)
    ensures CleanFor(ps, key)
  {
    forall i | 0 <= i < |ps| && ps[i].Lit? ensures Clean(ps[i].text, Pattern(key)) { PlainIsClean(ps[i].text, key); }
  }

  lemma {:induction false} ReplaceFills(ps: seq<Piece>, key: string, value: string)
    requires CleanFor(ps, key) && '{' !in key && '}' !in key
    ensures Replace(ShowAll(ps), Pattern(key), value) == ShowAll(FillAll(ps, [(key, value)]))
  {
    if ps != [] {
      var rest := ps[1..];
      ReplaceFills(rest, key, value);
      assert FillAll(ps, [(key, value)])[1..] == FillAll(rest, [(key, value)]);
      if ps[0].Hole? { LookupOne(key, value, ps[0].key); }
      if ps[0].Lit? {
        ReplaceSkips(ps[0].text, ShowAll(rest), key, value);
      } else {
        ReplaceHole(ps[0].key, ShowAll(rest), key, value);
      }
    }
  }

  // ----- the loop -------------------------------------------------------------------------

  lemma LookupAbsent(params: seq<(string, string)>, key: string)
    requires forall i :: 0 <= i < |params| ==> params[i].0 != key
    ensures Lookup(params, key) == None
  {
  }

  /** Filling the holes of one key and then the others is filling all at once. */
  lemma FillSteps(ps: seq<Piece>, params: seq<(string, string)>)
    requires params != []
    ensures FillAll(FillAll(ps, [params[0]]), params[1..]) == FillAll(ps, params)
  {
    assert [params[0]][1..] == [];
    forall i | 0 <= i < |ps| ensures Fill(Fill(ps[i], [params[0]]), params[1..]) == Fill(ps[i], params) {
      if ps[i].Hole? {
        assert Lookup([params[0]], ps[i].key)
          == if params[0].0 == ps[i].key then Some(params[0].1) else Lookup([], ps[i].key);
      }
    }
  }

  /** The replace loop is simultaneous substitution. */
  lemma {:induction false} RenderIsSubstitution(ps: seq<Piece>, params: seq<(string, string)>)
    requires Plain(ps) && PlainParams(params)
    ensures RenderAll(ShowAll(ps), params) == ShowAll(FillAll(ps, params))
    decreases |params|
  {
    if params == [] {
      assert FillAll(ps, params) == ps;
    } else {
      PlainIsCleanFor(ps, params[0].0);
      ReplaceFills(ps, params[0].0, params[0].1);
      assert params[0] == (params[0].0, params[0].1);
      assert Lookup([params[0]], params[0].0) == Some(params[0].1) && [params[0]][1..] == [];
      FilledIsPlain(ps, [params[0]]);
      RenderIsSubstitution(FillAll(ps, [params[0]]), params[1..]);
      FillSteps(ps, params);
    }
  }

  lemma {:induction false} LookupMember(params: seq<(string, string)>, key: string, value: string)
    requires forall i, j :: 0 <= i < j < |params| ==> params[i].0 != params[j].0
    ensures Lookup(params, key) == Some(value) <==> (key, value) in params
  {
    if params != [] {
      LookupMember(params[1..], key, value);
      assert params == [params[0]] + params[1..];
      if params[0].0 == key { LookupAbsent(params[1..], key); }
    }
  }

  /** The order of the parameters does not matter. */
  lemma RenderIgnoresOrder(ps: seq<Piece>, a: seq<(string, string)>, b: seq<(string, string)>)
    requires Plain(ps) && PlainParams(a) && PlainParams(b)
    requires forall kv :: kv in a <==> kv in b
    ensures RenderAll(ShowAll(ps), a) == RenderAll(ShowAll(ps), b)
  {
    RenderIsSubstitution(ps, a);
    RenderIsSubstitution(ps, b);
    forall i | 0 <= i < |ps| && ps[i].Hole? ensures Lookup(a, ps[i].key) == Lookup(b, ps[i].key) {
      var key := ps[i].key;
      if Lookup(a, key).Some? {
        LookupMember(a, key, Lookup(a, key).value);
        LookupMember(b, key, Lookup(a, key).value);
      }
      if Lookup(b, key).Some? {
        LookupMember(b, key, Lookup(b, key).value);
        LookupMember(a, key, Lookup(b, key).value);
      }
    }
    assert FillAll(ps, a) == FillAll(ps, b);
  }

  /** Rendering again changes nothing. */
  lemma RenderTwice(ps: seq<Piece>, params: seq<(string, string)>)
    requires Plain(ps) && PlainParams(params)
    ensures RenderAll(RenderAll(ShowAll(ps), params), params) == RenderAll(ShowAll(ps), params)
  {
    RenderIsSubstitution(ps, params);
    FilledIsPlain(ps, params);
    RenderIsSubstitution(FillAll(ps, params), params);
    assert FillAll(FillAll(ps, params), params) == FillAll(ps, params);
  }

  lemma FilledIsPlain(ps: seq<Piece>, params: seq<(string, string)>)
    requires Plain(ps) && PlainParams(params)
    ensures Plain(FillAll(ps, params))
  {
    forall i | 0 <= i < |ps| && ps[i].Hole? && Lookup(params, ps[i].key).Some?
      ensures '{' !in Lookup(params, ps[i].key).value
    {
      LookupMember(params, ps[i].key, Lookup(params, ps[i].key).value);
    }
  }

  // ----- two parameters, any values -----------------------------------------------------------

  lemma {:induction false} ReplaceBySelf(s: string, pattern: string)
    requires pattern != ""
    ensures Replace(s, pattern, pattern) == s
    decreases |s|
  {
    if |s| >= |pattern| {
      if s[..|pattern|] == pattern {
        ReplaceBySelf(s[|pattern|..], pattern);
        assert s == pattern + s[|pattern|..];
      } else {
        ReplaceBySelf(s[1..], pattern);
      }
    }
  }

  /** Replacing a pattern that occurs by something longer or shorter changes the length. */
  lemma {:induction false} ReplaceLength(s: string, pattern: string, value: string)
    requires pattern != ""
    ensures |value| >= |pattern| ==> |Replace(s, pattern, value)| >= |s|
    ensures |value| <= |pattern| ==> |Replace(s, pattern, value)| <= |s|
    decreases |s|
  {
    if |s| >= |pattern| {
      ReplaceLength(if s[..|pattern|] == pattern then s[|pattern|..] else s[1..], pattern, value);
    }
  }

  lemma {:induction false} ReplaceChanges(s: string, pattern: string, value: string, at: nat)
    requires pattern != "" && value != pattern && at <= |s| && pattern <= s[at..]
    ensures Replace(s, pattern, value) != s
    decreases |s|
  {
    if s[..|pattern|] == pattern {
      var rest := s[|pattern|..];
      ReplaceLength(rest, pattern, value);
      assert s == pattern + rest;
      if |value| == |pattern| { assert (value + Replace(rest, pattern, value))[..|pattern|] == value; }
    } else {
      assert at > 0 by { assert s[0..] == s; }
      assert s[1..][at - 1..] == s[at..];
      ReplaceChanges(s[1..], pattern, value, at - 1);
      assert s == [s[0]] + s[1..];
      assert ([s[0]] + Replace(s[1..], pattern, value))[1..] == Replace(s[1..], pattern, value);
    }
  }

  /** The loop and the simultaneous substitution agree on this template. */
  predicate Agrees(ps: seq<Piece>, params: seq<(string, string)>) {
    RenderAll(ShowAll(ps), params) == ShowAll(FillAll(ps, params))
  }

  lemma LookupTwo(a: string, v: string, b: string, w: string, key: string)
    ensures Lookup([(a, v), (b, w)], key) == if a == key then Some(v) else if b == key then Some(w) else None
  {
    assert [(a, v), (b, w)][1..] == [(b, w)];
    LookupOne(b, w, key);
  }

  lemma RenderTwo(ps: seq<Piece>, a: string, v: string, b: string, w: string)
    requires Plain(ps) && '{' !in a && '}' !in a
    ensures RenderAll(ShowAll(ps), [(a, v), (b, w)]) == Replace(ShowAll(FillAll(ps, [(a, v)])), Pattern(b), w)
  {
    PlainIsCleanFor(ps, a);
    ReplaceFills(ps, a, v);
    assert [(a, v), (b, w)][1..] == [(b, w)] && [(b, w)][1..] == [];
    var s := Replace(ShowAll(ps), Pattern(a), v);
    assert RenderAll(s, [(b, w)]) == RenderAll(Replace(s, Pattern(b), w), []);
  }

  lemma {:induction false} SameShow(ps: seq<Piece>, qs: seq<Piece>)
    requires |ps| == |qs| && forall i :: 0 <= i < |ps| ==> Show(ps[i]) == Show(qs[i])
    ensures ShowAll(ps) == ShowAll(qs)
  {
    if ps != [] { SameShow(ps[1..], qs[1..]); }
  }

  /** A second value that is its own hole is never noticed. */
  lemma AgreesOnOwnHole(ps: seq<Piece>, a: string, v: string, b: string)
    requires Plain(ps) && '{' !in a && '}' !in a
    ensures Agrees(ps, [(a, v), (b, Pattern(b))])
  {
    RenderTwo(ps, a, v, b, Pattern(b));
    ReplaceBySelf(ShowAll(FillAll(ps, [(a, v)])), Pattern(b));
    forall i | 0 <= i < |ps| ensures Show(Fill(ps[i], [(a, v)])) == Show(Fill(ps[i], [(a, v), (b, Pattern(b))])) {
      if ps[i].Hole? {
        LookupOne(a, v, ps[i].key);
        LookupTwo(a, v, b, Pattern(b), ps[i].key);
      }
    }
    SameShow(FillAll(ps, [(a, v)]), FillAll(ps, [(a, v), (b, Pattern(b))]));
  }

  lemma AgreesOnClean(ps: seq<Piece>, a: string, v: string, b: string, w: string)
    requires Plain(ps) && '{' !in a && '}' !in a && '{' !in b && '}' !in b && Clean(v, Pattern(b))
    ensures Agrees(ps, [(a, v), (b, w)])
  {
    RenderTwo(ps, a, v, b, w);
    var qs := FillAll(ps, [(a, v)]);
    PlainIsCleanFor(ps, b);
    forall i | 0 <= i < |qs| && qs[i].Lit? ensures Clean(qs[i].text, Pattern(b)) {
      if ps[i].Hole? { LookupOne(a, v, ps[i].key); }
    }
    ReplaceFills(qs, b, w);
    FillSteps(ps, [(a, v), (b, w)]);
    assert [(a, v), (b, w)][1..] == [(b, w)];
  }

  /** Where the first value is not clean for the second key, a template of its hole and the rest of
      the second hole tells the difference. */
  lemma DisagreesOnUnclean(a: string, v: string, b: string, w: string) returns (ps: seq<Piece>)
    requires a != b && '{' !in a && '}' !in a && '{' !in b && '}' !in b && !Clean(v, Pattern(b)) && w != Pattern(b)
    ensures Plain(ps) && !Agrees(ps, [(a, v), (b, w)])
  {
    var rest, at := UncleanCompletes(v, b);
    ps := [Hole(a), Lit(rest)];
    ReplaceChanges(v + rest, Pattern(b), w, at);
    RenderTwo(ps, a, v, b, w);
    HoleThenText(a, v, b, w, rest);
  }

  lemma HoleThenText(a: string, v: string, b: string, w: string, rest: string)
    ensures ShowAll(FillAll([Hole(a), Lit(rest)], [(a, v)])) == v + rest
    ensures ShowAll(FillAll([Hole(a), Lit(rest)], [(a, v), (b, w)])) == v + rest
  {
    LookupOne(a, v, a);
    LookupTwo(a, v, b, w, a);
    ShowTwo(v, rest);
    assert FillAll([Hole(a), Lit(rest)], [(a, v)]) == [Lit(v), Lit(rest)];
    assert FillAll([Hole(a), Lit(rest)], [(a, v), (b, w)]) == [Lit(v), Lit(rest)];
  }

  /** Text that is not clean holds the pattern once it is followed by the right text. */
  lemma UncleanCompletes(v: string, b: string) returns (rest: string, at: nat)
    requires '{' !in b && !Clean(v, Pattern(b))
    ensures '{' !in rest && at <= |v + rest| && Pattern(b) <= (v + rest)[at..]
  {
    var pattern := Pattern(b);
    at :| 0 <= at < |v| && Begins(v, pattern, at);
    if pattern <= v[at..] {
      rest := "";
      assert v + rest == v;
    } else {
      rest := pattern[|v| - at..];
      forall k | 0 <= k < |rest| ensures rest[k] != '{' { assert rest[k] == (b + "}")[|v| - at + k - 1]; }
      assert pattern == v[at..] + rest && (v + rest)[at..] == v[at..] + rest;
    }
  }

  lemma ShowTwo(x: string, y: string)
    ensures ShowAll([Lit(x), Lit(y)]) == x + y
  {
    assert [Lit(x), Lit(y)][1..] == [Lit(y)] && [Lit(y)][1..] == [];
    assert ShowAll([Lit(y)]) == y + ShowAll([]);
  }

  /** For two parameters with any values: the loop is simultaneous substitution on all templates
      if and only if the second value is its own hole, or the first neither contains the second
      hole nor ends with the beginning of it. */
  lemma TwoParametersIff(a: string, v: string, b: string, w: string)
    requires a != b && '{' !in a && '}' !in a && '{' !in b && '}' !in b
    ensures (forall ps :: Plain(ps) ==> Agrees(ps, [(a, v), (b, w)])) <==> w == Pattern(b) || Clean(v, Pattern(b))
  {
    if w == Pattern(b) {
      forall ps | Plain(ps) ensures Agrees(ps, [(a, v), (b, w)]) { AgreesOnOwnHole(ps, a, v, b); }
    } else if Clean(v, Pattern(b)) {
      forall ps | Plain(ps) ensures Agrees(ps, [(a, v), (b, w)]) { AgreesOnClean(ps, a, v, b, w); }
    } else {
      var ps := DisagreesOnUnclean(a, v, b, w);
    }
  }

  /** The condition on values matters: a value that contains another parameter's hole makes the
      result depend on the order of the parameters. */
  lemma ValueWithHoleDependsOnOrder()
    ensures RenderAll("{a}", [("a", "{b}"), ("b", "x")]) == "x"
    ensures RenderAll("{a}", [("b", "x"), ("a", "{b}")]) == "{b}"
  {
    var a, b := [Hole("a")], [Hole("b")];
    assert ShowAll(a) == "{a}" && ShowAll(b) == "{b}" by { assert a[1..] == [] && b[1..] == []; }
    PlainIsCleanFor(a, "a");
    PlainIsCleanFor(b, "b");
    PlainIsCleanFor(a, "b");
    ReplaceFills(a, "a", "{b}");
    ReplaceFills(b, "b", "x");
    ReplaceFills(a, "b", "x");
    assert [("a", "{b}")][1..] == [] && [("b", "x")][1..] == [];
    assert FillAll(a, [("a", "{b}")]) == [Lit("{b}")] && FillAll(b, [("b", "x")]) == [Lit("x")]
      && FillAll(a, [("b", "x")]) == a;
    assert ShowAll([Lit("{b}")]) == "{b}" by { assert [Lit("{b}")][1..] == []; }
    assert ShowAll([Lit("x")]) == "x" by { assert [Lit("x")][1..] == []; }
    assert [("a", "{b}"), ("b", "x")][1..] == [("b", "x")] && [("b", "x"), ("a", "{b}")][1..] == [("a", "{b}")];
    assert RenderAll("x", []) == "x" && RenderAll("{b}", []) == "{b}";
    assert RenderAll("{b}", [("b", "x")]) == "x" && RenderAll("{a}", [("a", "{b}")]) == "{b}";
  }
}
