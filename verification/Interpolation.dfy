/** Variable interpolation in flow templates (interpolateVars): every variable in turn replaces its
    placeholder, in whatever order the map is iterated. */
module Interpolation {
  import opened Text

  type Vars = map<string, string>

  function Placeholder(k: string): string {
    "${" + k + "}"
  }

  lemma PlaceholderIs(k: string)
    ensures var p := Placeholder(k);
      |p| == |k| + 3 && p[0] == '$' && p[1] == '{' && p[2..|k| + 2] == k && p[|k| + 2] == '}'
  {
  }

  // strings.ReplaceAll for a non-empty pattern: leftmost, non-overlapping.
  function ReplaceAll(s: string, pat: string, rep: string): string
    requires pat != ""
  {
    if s == "" then ""
    else if pat <= s then rep + ReplaceAll(s[|pat|..], pat, rep)
    else [s[0]] + ReplaceAll(s[1..], pat, rep)
  }

  // order enumerates keys: each exactly once.
  ghost predicate Enumerates(order: seq<string>, keys: set<string>) {
    && (forall k :: k in keys <==> k in order)
    && (forall i, j :: 0 <= i < j < |order| ==> order[i] != order[j])
  }

  function Interpolate(s: string, order: seq<string>, vars: Vars): string
    decreases |order|
  {
    if order == [] then s
    else Interpolate(ReplaceVar(s, order[0], vars), order[1..], vars)
  }

  function ReplaceVar(s: string, k: string, vars: Vars): string {
    if k in vars then ReplaceAll(s, Placeholder(k), vars[k]) else s
  }

  /** interpolateVars, iterating the variables in the given order. */
  method InterpolateVars(s: string, order: seq<string>, vars: Vars) returns (r: string)
    ensures r == Interpolate(s, order, vars)
  {
    r := s;
    for i := 0 to |order|
      invariant Interpolate(s, order, vars) == Interpolate(r, order[i..], vars)
    {
      r := ReplaceVar(r, order[i], vars);
      assert order[i..][1..] == order[i + 1..];
    }
  }

  // ---------------------------------------------------------------------------
  // The meaning of a template
  // ---------------------------------------------------------------------------

  datatype Piece = Literal(text: string) | Hole(key: string)

  function Written(p: Piece): string {
    match p
    case Literal(x) => x
    case Hole(k) => Placeholder(k)
  }

  function Render(t: seq<Piece>): string {
    if t == [] then "" else Written(t[0]) + Render(t[1..])
  }

  function Fill(p: Piece, vars: Vars): Piece {
    if p.Hole? && p.key in vars then Literal(vars[p.key]) else p
  }

  // The simultaneous substitution: each hole looked up once, results never looked into.
  function Substitute(t: seq<Piece>, vars: Vars): seq<Piece> {
    seq(|t|, i requires 0 <= i < |t| => Fill(t[i], vars))
  }

  predicate Free(s: string, c: char) {
    c !in s
  }

  ghost predicate CleanPiece(p: Piece) {
    match p
    case Literal(x) => Free(x, '$')
    case Hole(k) => Free(k, '$') && Free(k, '}')
  }

  ghost predicate CleanTemplate(t: seq<Piece>) {
    forall i :: 0 <= i < |t| ==> CleanPiece(t[i])
  }

  ghost predicate CleanVars(vars: Vars) {
    forall k :: k in vars ==> Free(k, '$') && Free(k, '}') && Free(vars[k], '$')
  }

  // However text goes on, no '$' of it starts the placeholder.
  ghost predicate NeverStarts(text: string, k: string) {
    forall p :: 0 <= p < |text| && text[p] == '$' ==> !(text[p..] <= Placeholder(k)) && !(Placeholder(k) <= text[p..])
  }

  lemma NoMatchAtStart(x: string, rest: string, k: string)
    requires NeverStarts(x, k) && x != ""
    ensures !(Placeholder(k) <= x + rest)
  {
    var pat := Placeholder(k);
    CommonPrefix(x, rest, pat);
    assert x[0..] == x && (x + rest)[0] == x[0] && pat[0] == '$';
  }

  lemma NeverStartsLater(x: string, k: string)
    requires NeverStarts(x, k) && x != ""
    ensures NeverStarts(x[1..], k)
  {
    forall p | 0 <= p < |x[1..]| && x[1..][p] == '$'
      ensures !(x[1..][p..] <= Placeholder(k)) && !(Placeholder(k) <= x[1..][p..])
    {
      assert x[p + 1] == '$' && x[1..][p..] == x[p + 1..];
    }
  }

  // Such a prefix passes through unchanged.
  lemma {:induction false} ReplaceSkips(x: string, rest: string, k: string, v: string)
    requires NeverStarts(x, k)
    ensures ReplaceAll(x + rest, Placeholder(k), v) == x + ReplaceAll(rest, Placeholder(k), v)
  {
    var s := x + rest;
    if x == "" {
      assert s == rest;
    } else {
      NoMatchAtStart(x, rest, k);
      NeverStartsLater(x, k);
      hide NeverStarts;
      assert s[0] == x[0] && s[1..] == x[1..] + rest;
      ReplaceSkips(x[1..], rest, k, v);
      assert x == [x[0]] + x[1..];
    }
  }

  lemma CommonPrefix(x: string, rest: string, pat: string)
    ensures pat <= x + rest ==> x <= pat || pat <= x
  {
    assert pat <= x + rest ==> forall i :: 0 <= i < |pat| && i < |x| ==> pat[i] == (x + rest)[i] == x[i];
  }

  lemma PlainNeverStarts(x: string, k: string)
    requires Free(x, '$')
    ensures NeverStarts(x, k)
  {
  }

  // Two brace-free keys: the placeholder of one starts the placeholder of the other only if they are equal.
  lemma PlaceholderPrefix(k: string, k': string, rest: string)
    requires Free(k, '}') && Free(k', '}')
    requires Placeholder(k) <= Placeholder(k') + rest
    ensures k == k'
  {
    var a, b := Placeholder(k), Placeholder(k') + rest;
    assert forall i :: 0 <= i < |a| ==> a[i] == b[i];
    assert a[|k| + 2] == '}' && b[|k'| + 2] == '}';
    assert forall i :: 0 <= i < |k| ==> a[i + 2] == k[i];
    assert forall i :: 0 <= i < |k'| ==> b[i + 2] == k'[i];
    assert k == a[2..|k| + 2] && k' == b[2..|k'| + 2];
  }

  lemma ReplaceAtHole(k': string, rest: string, k: string, v: string)
    requires Free(k, '}') && Free(k', '}') && Free(k', '$')
    ensures ReplaceAll(Placeholder(k') + rest, Placeholder(k), v)
         == (if k' == k then v else Placeholder(k')) + ReplaceAll(rest, Placeholder(k), v)
  {
    var s := Placeholder(k') + rest;
    if k' == k {
      assert s[|Placeholder(k)|..] == rest;
    } else {
      if Placeholder(k) <= s {
        PlaceholderPrefix(k, k', rest);
      }
      var tail := "{" + k' + "}";
      assert s[1..] == tail + rest && s[0] == '$';
      PlainNeverStarts(tail, k);
      ReplaceSkips(tail, rest, k, v);
      assert Placeholder(k') == ['$'] + tail;
    }
  }

  // The piece's text does not start the placeholder anywhere but at a hole of that key.
  ghost predicate PieceFor(p: Piece, k: string) {
    match p
    case Literal(x) => NeverStarts(x, k)
    case Hole(h) => Free(h, '$') && Free(h, '}')
  }

  ghost predicate TemplateFor(t: seq<Piece>, k: string) {
    forall i :: 0 <= i < |t| ==> PieceFor(t[i], k)
  }

  // One ReplaceAll on such a template fills exactly the holes of that key.
  lemma {:induction false} ReplaceFillsHoles(t: seq<Piece>, k: string, v: string)
    requires TemplateFor(t, k) && Free(k, '}')
    ensures ReplaceAll(Render(t), Placeholder(k), v) == Render(Substitute(t, map[k := v]))
  {
    var u := Substitute(t, map[k := v]);
    if t != [] {
      ReplaceFillsHoles(t[1..], k, v);
      assert u[1..] == Substitute(t[1..], map[k := v]);
      assert PieceFor(t[0], k);
      match t[0] {
        case Literal(x) => ReplaceSkips(x, Render(t[1..]), k, v);
        case Hole(k') => ReplaceAtHole(k', Render(t[1..]), k, v);
      }
    }
  }

  // ---------------------------------------------------------------------------
  // When the order does not matter
  // ---------------------------------------------------------------------------

  ghost predicate CleanKeys(vars: Vars) {
    forall k :: k in vars ==> Free(k, '$') && Free(k, '}')
  }

  // A variable whose value is its own placeholder replaces it by itself.
  predicate Idle(vars: Vars, k: string)
    requires k in vars
  {
    vars[k] == Placeholder(k)
  }

  /** No value can start another variable's placeholder, alone or with text that follows it; variables that
      stand for their own placeholder do not count. */
  ghost predicate Harmless(vars: Vars) {
    forall a, b :: a in vars && b in vars && a != b && !Idle(vars, b) ==> NeverStarts(vars[a], b)
  }

  function Restrict(vars: Vars, keys: seq<string>): Vars {
    map k | k in keys && k in vars :: vars[k]
  }

  lemma {:induction false} ReplaceByItself(s: string, pat: string)
    requires pat != ""
    ensures ReplaceAll(s, pat, pat) == s
    decreases |s|
  {
    if s != "" {
      if pat <= s {
        ReplaceByItself(s[|pat|..], pat);
        assert s == pat + s[|pat|..];
      } else {
        ReplaceByItself(s[1..], pat);
      }
    }
  }

  lemma {:induction false} SameText(t: seq<Piece>, u: seq<Piece>)
    requires |t| == |u| && forall i :: 0 <= i < |t| ==> Written(t[i]) == Written(u[i])
    ensures Render(t) == Render(u)
  {
    if t != [] {
      SameText(t[1..], u[1..]);
    }
  }

  // An idle variable's holes read the same filled or not.
  lemma IdleReadsTheSame(t: seq<Piece>, order: seq<string>, vars: Vars)
    requires order != [] && order[0] in vars && Idle(vars, order[0])
    ensures Render(Substitute(t, Restrict(vars, order[1..]))) == Render(Substitute(t, Restrict(vars, order)))
  {
    var k, rest := order[0], order[1..];
    assert order == [k] + rest;
    var u, w := Substitute(t, Restrict(vars, rest)), Substitute(t, Restrict(vars, order));
    forall i | 0 <= i < |t|
      ensures Written(u[i]) == Written(w[i])
    {
    }
    SameText(u, w);
  }

  lemma SubstituteOneThenRest(t: seq<Piece>, order: seq<string>, vars: Vars)
    requires order != [] && order[0] in vars
    ensures Substitute(Substitute(t, map[order[0] := vars[order[0]]]), Restrict(vars, order[1..]))
         == Substitute(t, Restrict(vars, order))
  {
    var k, rest := order[0], order[1..];
    assert order == [k] + rest;
    var u := Substitute(t, map[k := vars[k]]);
    forall i | 0 <= i < |t|
      ensures Fill(u[i], Restrict(vars, rest)) == Fill(t[i], Restrict(vars, order))
    {
    }
  }

  // The template fits every variable still to come that replaces anything.
  ghost predicate FitsAll(t: seq<Piece>, order: seq<string>, vars: Vars) {
    forall k :: k in order && k in vars && !Idle(vars, k) ==> TemplateFor(t, k)
  }

  lemma SubstituteKeepsFit(t: seq<Piece>, order: seq<string>, vars: Vars)
    requires Harmless(vars) && order != [] && order[0] in vars && order[0] !in order[1..] && FitsAll(t, order, vars)
    ensures FitsAll(Substitute(t, map[order[0] := vars[order[0]]]), order[1..], vars)
  {
    var a := order[0];
    var u := Substitute(t, map[a := vars[a]]);
    forall k | k in order[1..] && k in vars && !Idle(vars, k)
      ensures TemplateFor(u, k)
    {
      assert TemplateFor(t, k) && NeverStarts(vars[a], k);
      assert forall i :: 0 <= i < |t| ==> PieceFor(t[i], k);
    }
  }

  lemma {:induction false} InterpolateInOrder(t: seq<Piece>, order: seq<string>, vars: Vars)
    requires CleanKeys(vars) && Harmless(vars) && FitsAll(t, order, vars)
    requires forall k :: k in order ==> k in vars
    requires forall i, j :: 0 <= i < j < |order| ==> order[i] != order[j]
    ensures Interpolate(Render(t), order, vars) == Render(Substitute(t, Restrict(vars, order)))
    decreases |order|
  {
    if order == [] {
      assert Substitute(t, Restrict(vars, order)) == t;
    } else {
      var k, v := order[0], vars[order[0]];
      assert order[0] !in order[1..];
      if Idle(vars, k) {
        ReplaceByItself(Render(t), Placeholder(k));
        InterpolateInOrder(t, order[1..], vars);
        IdleReadsTheSame(t, order, vars);
      } else {
        ReplaceFillsHoles(t, k, v);
        SubstituteKeepsFit(t, order, vars);
        InterpolateInOrder(Substitute(t, map[k := v]), order[1..], vars);
        SubstituteOneThenRest(t, order, vars);
      }
    }
  }

  lemma CleanFits(t: seq<Piece>, k: string)
    requires CleanTemplate(t)
    ensures TemplateFor(t, k)
  {
    forall i | 0 <= i < |t|
      ensures PieceFor(t[i], k)
    {
      assert CleanPiece(t[i]);
    }
  }

  lemma HarmlessIsEnough(t: seq<Piece>, order: seq<string>, vars: Vars)
    requires CleanTemplate(t) && CleanKeys(vars) && Harmless(vars) && Enumerates(order, vars.Keys)
    ensures Interpolate(Render(t), order, vars) == Render(Substitute(t, vars))
  {
    forall k | k in order
      ensures TemplateFor(t, k)
    {
      CleanFits(t, k);
    }
    InterpolateInOrder(t, order, vars);
    assert Restrict(vars, order) == vars;
  }

  /** Whatever order the variables are visited in, a clean template is filled by the simultaneous
      substitution, when keys hold neither '$' nor '}' and values no '$'. */
  lemma InterpolationIsOrderIndependent(t: seq<Piece>, order: seq<string>, vars: Vars)
    requires CleanTemplate(t) && CleanVars(vars) && Enumerates(order, vars.Keys)
    ensures Interpolate(Render(t), order, vars) == Render(Substitute(t, vars))
  {
    HarmlessIsEnough(t, order, vars);
  }

  // ---------------------------------------------------------------------------
  // When it does
  // ---------------------------------------------------------------------------

  // Replacements that ReplaceAll makes.
  function Hits(s: string, pat: string): nat
    requires pat != ""
  {
    if s == "" then 0
    else if pat <= s then 1 + Hits(s[|pat|..], pat)
    else Hits(s[1..], pat)
  }

  lemma {:induction false} EachHitChangesLength(s: string, pat: string, rep: string)
    requires pat != ""
    ensures |ReplaceAll(s, pat, rep)| == |s| + Hits(s, pat) * (|rep| - |pat|)
    decreases |s|
  {
    if s != "" {
      if pat <= s {
        EachHitChangesLength(s[|pat|..], pat, rep);
        OneMoreHit(Hits(s[|pat|..], pat), |rep| - |pat|);
      } else {
        EachHitChangesLength(s[1..], pat, rep);
      }
    }
  }

  lemma OneMoreHit(n: nat, d: int)
    ensures (1 + n) * d == d + n * d
    ensures n > 0 && n * d == 0 ==> d == 0
  {
  }

  // A replacement that is made and leaves the text alone replaced the placeholder by itself.
  lemma {:induction false} FixedMeansIdle(s: string, pat: string, rep: string)
    requires pat != "" && Hits(s, pat) > 0 && ReplaceAll(s, pat, rep) == s
    ensures rep == pat
    decreases |s|
  {
    EachHitChangesLength(s, pat, rep);
    OneMoreHit(Hits(s, pat), |rep| - |pat|);
    if pat <= s {
      var rest := ReplaceAll(s[|pat|..], pat, rep);
      assert rep == (rep + rest)[..|pat|];
    } else {
      var rest := ReplaceAll(s[1..], pat, rep);
      assert s == [s[0]] + rest && s[1..] == rest;
      FixedMeansIdle(s[1..], pat, rep);
    }
  }

  lemma {:induction false} OccurrenceHits(x: string, pat: string, y: string)
    requires pat != ""
    ensures Hits(x + pat + y, pat) > 0
    decreases |x|
  {
    var s := x + pat + y;
    if x == "" {
      assert s == pat + y;
    } else {
      assert s[1..] == x[1..] + pat + y;
      OccurrenceHits(x[1..], pat, y);
    }
  }

  lemma {:induction false} InterpolateConcat(s: string, a: seq<string>, b: seq<string>, vars: Vars)
    ensures Interpolate(s, a + b, vars) == Interpolate(Interpolate(s, a, vars), b, vars)
    decreases |a|
  {
    if a == [] {
      assert a + b == b;
    } else {
      assert (a + b)[1..] == a[1..] + b;
      InterpolateConcat(ReplaceVar(s, a[0], vars), a[1..], b, vars);
    }
  }

  // Variables without a hole leave a clean template alone.
  lemma {:induction false} OthersLeaveIt(t: seq<Piece>, order: seq<string>, vars: Vars)
    requires CleanTemplate(t) && CleanKeys(vars) && forall k :: k in order ==> Hole(k) !in t
    ensures Interpolate(Render(t), order, vars) == Render(t)
    decreases |order|
  {
    if order != [] {
      var k := order[0];
      if k in vars {
        CleanFits(t, k);
        ReplaceFillsHoles(t, k, vars[k]);
        assert Substitute(t, map[k := vars[k]]) == t;
      }
      OthersLeaveIt(t, order[1..], vars);
    }
  }

  lemma {:induction false} Enumeration(keys: set<string>) returns (order: seq<string>)
    ensures Enumerates(order, keys)
    decreases keys
  {
    order := [];
    if keys != {} {
      var k :| k in keys;
      var rest := Enumeration(keys - {k});
      order := rest + [k];
      assert forall i :: 0 <= i < |rest| ==> rest[i] in rest;
    }
  }

  // The rest of b's placeholder after what a's value ends with; nothing when the value holds all of it.
  function Completion(v: string, p: nat, b: string): string
    requires p <= |v|
  {
    if Placeholder(b) <= v[p..] then "" else if |v| - p <= |Placeholder(b)| then Placeholder(b)[|v| - p..] else ""
  }

  lemma PlaceholderTailFree(b: string, k: nat)
    requires Free(b, '$') && 1 <= k <= |Placeholder(b)|
    ensures Free(Placeholder(b)[k..], '$')
  {
    var pat := Placeholder(b);
    assert forall i :: 1 <= i < |pat| ==> pat[i] != '$';
    assert forall i :: 0 <= i < |pat[k..]| ==> pat[k..][i] == pat[i + k];
  }

  lemma CompletionCompletes(v: string, p: nat, b: string) returns (y: string)
    requires p < |v| && v[p] == '$' && Free(b, '$')
    requires v[p..] <= Placeholder(b) || Placeholder(b) <= v[p..]
    ensures v + Completion(v, p, b) == v[..p] + Placeholder(b) + y
    ensures Free(Completion(v, p, b), '$')
  {
    var pat, head, end := Placeholder(b), v[..p], v[p..];
    assert v == head + end;
    if pat <= end {
      y := end[|pat|..];
      assert end == pat + y;
      hide Placeholder;
      assert v + "" == head + pat + y;
    } else {
      y := "";
      PlaceholderTailFree(b, |end|);
      hide Placeholder;
      var tail := pat[|end|..];
      assert pat == end + tail;
      assert v + tail == head + pat + "";
    }
  }

  // A hole of a with plain text behind it.
  function Witness(a: string, w: string): seq<Piece> {
    [Hole(a), Literal(w)]
  }

  lemma WitnessFilled(vars: Vars, a: string, w: string)
    requires a in vars && Free(w, '$')
    ensures Render(Substitute(Witness(a, w), vars)) == vars[a] + w
    ensures Render(Substitute(Witness(a, w), map[a := vars[a]])) == vars[a] + w
  {
    var filled := [Literal(vars[a]), Literal(w)];
    assert Substitute(Witness(a, w), vars) == filled && Substitute(Witness(a, w), map[a := vars[a]]) == filled;
    assert filled[1..] == [Literal(w)] && [Literal(w)][1..] == [];
    assert Render([Literal(w)]) == w + "";
  }

  // Until a's turn comes nothing happens; then its value takes the hole.
  lemma WitnessUntil(vars: Vars, a: string, w: string, before: seq<string>)
    requires CleanKeys(vars) && a in vars && Free(w, '$') && a !in before
    ensures Interpolate(Render(Witness(a, w)), before + [a], vars) == vars[a] + w
  {
    var t := Witness(a, w);
    assert CleanPiece(t[0]) && CleanPiece(t[1]);
    OthersLeaveIt(t, before, vars);
    CleanFits(t, a);
    ReplaceFillsHoles(t, a, vars[a]);
    WitnessFilled(vars, a, w);
    hide Interpolate, Render, Substitute;
    InterpolateConcat(Render(t), before, [a], vars);
    LastStep(Render(t), a, vars);
  }

  lemma TwoOrders(keys: set<string>, a: string, b: string) returns (others: seq<string>)
    requires a in keys && b in keys && a != b
    ensures Enumerates(others + [a] + [b], keys) && Enumerates(others + [b] + [a], keys) && a !in others + [b]
  {
    others := Enumeration(keys - {a, b});
    forall i | 0 <= i < |others|
      ensures others[i] != a && others[i] != b
    {
      assert others[i] in others;
    }
  }

  // A template and two orders of the variables on which the results differ.
  lemma HarmShows(vars: Vars, a: string, b: string, p: nat) returns (t: seq<Piece>, late: seq<string>, early: seq<string>)
    requires CleanKeys(vars) && a in vars && b in vars && a != b && !Idle(vars, b)
    requires p < |vars[a]| && vars[a][p] == '$'
    requires vars[a][p..] <= Placeholder(b) || Placeholder(b) <= vars[a][p..]
    ensures CleanTemplate(t) && Enumerates(late, vars.Keys) && Enumerates(early, vars.Keys)
    ensures Interpolate(Render(t), early, vars) == Render(Substitute(t, vars))
    ensures Interpolate(Render(t), late, vars) != Render(Substitute(t, vars))
  {
    var v, pat := vars[a], Placeholder(b);
    var w := Completion(v, p, b);
    var y := CompletionCompletes(v, p, b);
    t := Witness(a, w);
    assert CleanPiece(t[0]) && CleanPiece(t[1]);
    var others := TwoOrders(vars.Keys, a, b);
    late, early := others + [a] + [b], others + [b] + [a];
    WitnessFilled(vars, a, w);
    hide *;
    WitnessUntil(vars, a, w, others + [b]);
    WitnessUntil(vars, a, w, others);
    InterpolateConcat(Render(t), others + [a], [b], vars);
    LateReplaces(vars, b, v[..p], y, v + w);
  }

  lemma LateReplaces(vars: Vars, b: string, x: string, y: string, s: string)
    requires b in vars && !Idle(vars, b) && s == x + Placeholder(b) + y
    ensures Interpolate(s, [b], vars) != s
  {
    LastStep(s, b, vars);
    OccurrenceHits(x, Placeholder(b), y);
    if ReplaceAll(s, Placeholder(b), vars[b]) == s {
      FixedMeansIdle(s, Placeholder(b), vars[b]);
    }
  }

  lemma LastStep(s: string, k: string, vars: Vars)
    ensures Interpolate(s, [k], vars) == ReplaceVar(s, k, vars)
  {
    assert [k][1..] == [];
  }

  // Every order gives the simultaneous substitution on every clean template.
  ghost predicate AlwaysSimultaneous(vars: Vars) {
    forall t, order :: CleanTemplate(t) && Enumerates(order, vars.Keys) ==>
      Interpolate(Render(t), order, vars) == Render(Substitute(t, vars))
  }

  // All orders give the same on every clean template.
  ghost predicate OrderFree(vars: Vars) {
    forall t, order, order' :: CleanTemplate(t) && Enumerates(order, vars.Keys) && Enumerates(order', vars.Keys) ==>
      Interpolate(Render(t), order, vars) == Interpolate(Render(t), order', vars)
  }

  /** The exact condition on the values, for keys without '$' and '}': the order of the variables never shows
      on a clean template, and the result is then the simultaneous substitution, exactly when no value has a
      '$' that could start another variable's placeholder. */
  lemma OrderFreeIff(vars: Vars)
    requires CleanKeys(vars)
    ensures OrderFree(vars) <==> Harmless(vars)
    ensures AlwaysSimultaneous(vars) <==> Harmless(vars)
  {
    if Harmless(vars) {
      forall t, order | CleanTemplate(t) && Enumerates(order, vars.Keys)
        ensures Interpolate(Render(t), order, vars) == Render(Substitute(t, vars))
      {
        HarmlessIsEnough(t, order, vars);
      }
      hide Interpolate, Render, Substitute, CleanTemplate, Enumerates, Harmless;
    } else {
      var a, b :| a in vars && b in vars && a != b && !Idle(vars, b) && !NeverStarts(vars[a], b);
      var p :| 0 <= p < |vars[a]| && vars[a][p] == '$' && (vars[a][p..] <= Placeholder(b) || Placeholder(b) <= vars[a][p..]);
      var t, late, early := HarmShows(vars, a, b, p);
      hide Interpolate, Render, Substitute, CleanTemplate, Enumerates, Harmless;
    }
  }
}
