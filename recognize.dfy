/** `recognize_puzzle_and_solution` of crates/chia-inspect-core/src/recognize.rs:
    peel puzzle layers from the outside in, at most `MaxLayerDepth` times.
    Each round asks the catalog of templates for matches; no match ends the
    walk, several matches are reported as ambiguous and end it, and a single
    match is recorded as a wrapper and the walk goes on with its inner puzzle
    and inner solution, unless the layer is a leaf or the inner puzzle hashes
    to the same value as the current one. */
module Recognize {
  import opened Wrappers
  import opened Json
  import opened Hex
  import opened Layers

  const MaxLayerDepth: nat := 32
  const SourceRepo: string := "xch-dev/chia-wallet-sdk"
  const SourceRef: string := "0.33.0"
  const CycleReason: string := "next puzzle hash equals current hash"
  const SolutionDecodeError: string := "failed to decode solution bytes"
  const PuzzleDecodePrefix: string := "failed to decode puzzle_reveal bytes: "

  /** The three values the `confidence` field ever takes: 0.5, 0.8 and 1.0. */
  datatype Confidence = Ambiguous | MatchedWithError | Clean

  datatype PuzzleCandidate = PuzzleCandidate(
    name: string,
    confidence: Confidence,
    sourceRepo: Option<string>,
    sourcePath: Option<string>,
    sourceHash: Option<string>)

  datatype WrapperInfo = WrapperInfo(
    name: string,
    sourceRepo: string,
    sourceRef: string,
    sourcePath: Option<string>,
    modHash: string,
    curriedArgsTreeHash: Option<string>,
    innerPuzzleTreeHash: Option<string>,
    params: map<string, Value>,
    parseError: Option<string>)

  /** One entry of the `layers` list of the parsed solution. */
  datatype SolutionLayer =
    | Peeled(layer: string, sourcePath: string, result: SolutionStatus)
    | AmbiguousLayer(options: seq<string>)
    | Stopped(reason: string)

  /** The `parsed_solution` JSON: either the puzzle did not decode, or the
      solution layers with the solution left over after the last layer. */
  datatype ParsedSolution<T> =
    | PuzzleDecodeFailed(message: string)
    | Peeling(layers: seq<SolutionLayer>, remainingSolution: Option<T>, decodeError: Option<string>)

  datatype PuzzleRecognition<T> = PuzzleRecognition(
    recognized: bool,
    candidates: seq<PuzzleCandidate>,
    wrappers: seq<WrapperInfo>,
    parsedSolution: Option<ParsedSolution<T>>)

  /** `candidate_from_match`. */
  function CandidateFromMatch<P, T>(m: LayerMatch<P, T>, confidence: Confidence): (c: PuzzleCandidate)
    ensures c.name == Name(m.kind) && c.confidence == confidence
  {
    PuzzleCandidate(Name(m.kind), confidence, Some(SourceRepo), Some(SourcePath(m.kind)), Some(SourceRef))
  }

  /** A single match counts fully unless its solution failed to parse. */
  function ConfidenceOf<P, T>(m: LayerMatch<P, T>): Confidence
  {
    if m.parseError.Some? then MatchedWithError else Clean
  }

  /** The wrapper record for the single match `m` of puzzle `p`. */
  function WrapperFor<P, T>(d: Driver<P, T>, p: P, m: LayerMatch<P, T>): (w: WrapperInfo)
    ensures w.name == Name(m.kind) && w.parseError == m.parseError
    ensures w.innerPuzzleTreeHash.Some? <==> m.nextPuzzle.Some?
  {
    WrapperInfo(
      Name(m.kind), SourceRepo, SourceRef, Some(SourcePath(m.kind)),
      EncodeHexPrefixed(d.modHash(p)),
      match d.curriedArgsHash(p) case None => None case Some(h) => Some(EncodeHexPrefixed(h)),
      match m.nextPuzzle case None => None case Some(q) => Some(EncodeHexPrefixed(d.curriedPuzzleHash(q))),
      m.params, m.parseError)
  }

  /** One candidate at confidence 0.5 per match, in the order of the matches. */
  function AmbiguousCandidates<P, T>(ms: seq<LayerMatch<P, T>>): (cs: seq<PuzzleCandidate>)
    ensures |cs| == |ms|
    ensures forall i :: 0 <= i < |ms| ==> cs[i] == CandidateFromMatch(ms[i], Ambiguous)
  {
    seq(|ms|, i requires 0 <= i < |ms| => CandidateFromMatch(ms[i], Ambiguous))
  }

  /** The layer names of the matches, in order. */
  function MatchNames<P, T>(ms: seq<LayerMatch<P, T>>): (names: seq<string>)
    ensures |names| == |ms|
    ensures forall i :: 0 <= i < |ms| ==> names[i] == Name(ms[i].kind)
  {
    seq(|ms|, i requires 0 <= i < |ms| => Name(ms[i].kind))
  }

  /** What the walk appends to its three lists, and the solution it ends on. */
  datatype Trace<T> = Trace(
    wrappers: seq<WrapperInfo>,
    candidates: seq<PuzzleCandidate>,
    layers: seq<SolutionLayer>,
    remaining: Option<T>)

  /** How one round of the loop ends: the walk halts having appended the
      lists of `t`, or it records one layer and descends into `next`. */
  datatype Outcome<P, T> =
    | Halt(t: Trace<T>)
    | Descend(w: WrapperInfo, c: PuzzleCandidate, l: SolutionLayer, next: P, nextSolution: Option<T>)

  /** One round of the loop, on puzzle `p` and solution `s`. */
  function Round<P, T>(d: Driver<P, T>, p: P, s: Option<T>): Outcome<P, T>
  {
    var ms := Matches(d, p, s);
    if |ms| == 0 then Halt(Trace([], [], [], s))
    else if |ms| > 1 then Halt(Trace([], AmbiguousCandidates(ms), [AmbiguousLayer(MatchNames(ms))], s))
    else
      var m := ms[0];
      var w := WrapperFor(d, p, m);
      var c := CandidateFromMatch(m, ConfidenceOf(m));
      var l := Peeled(Name(m.kind), SourcePath(m.kind), m.solution);
      match m.nextPuzzle
      case None => Halt(Trace([w], [c], [l], m.nextSolution))
      case Some(q) =>
        if d.curriedPuzzleHash(q) == d.curriedPuzzleHash(p) then Halt(Trace([w], [c], [l, Stopped(CycleReason)], m.nextSolution))
        else Descend(w, c, l, q, m.nextSolution)
  }

  /** The walk from puzzle `p` and solution `s` with `fuel` rounds left,
      each round played by `round`. */
  function Walk<P, T>(round: (P, Option<T>) -> Outcome<P, T>, p: P, s: Option<T>, fuel: nat): Trace<T>
    decreases fuel
  {
    if fuel == 0 then Trace([], [], [], s)
    else
      match round(p, s)
      case Halt(t) => t
      case Descend(w, c, l, q, s') => Prepend([w], [c], [l], Walk(round, q, s', fuel - 1))
  }

  /** The rounds the driver `d` plays. */
  function Rounds<P, T>(d: Driver<P, T>): (P, Option<T>) -> Outcome<P, T>
  {
    (p, s) => Round(d, p, s)
  }

  /** The walk of the loop from puzzle `p` and solution `s`. */
  function Peel<P, T>(d: Driver<P, T>, p: P, s: Option<T>, fuel: nat): Trace<T>
  {
    Walk(Rounds(d), p, s, fuel)
  }

  /** The whole result, from the decoded puzzle (or the decoder's error
      message) and the decoded solution (`None` when it failed to decode). */
  function Recognition<P, T>(d: Driver<P, T>, puzzle: Result<P, string>, solution: Option<T>)
    : PuzzleRecognition<T>
  {
    match puzzle
    case Err(e) => PuzzleRecognition(false, [], [], Some(PuzzleDecodeFailed(PuzzleDecodePrefix + e)))
    case Ok(p) =>
      var t := Peel(d, p, solution, MaxLayerDepth);
      var decodeError := if solution.None? then Some(SolutionDecodeError) else None;
      PuzzleRecognition(
        t.wrappers != [], t.candidates, t.wrappers,
        if t.layers == [] && decodeError.None? then None else Some(Peeling(t.layers, t.remaining, decodeError)))
  }

  /** One pass of the loop body of `recognize_puzzle_and_solution`: collect
      the matches and decide whether the walk halts or descends. */
  method PlayRound<P, T>(d: Driver<P, T>, p: P, s: Option<T>) returns (o: Outcome<P, T>)
    ensures o == Round(d, p, s)
  {
    var matches := CollectMatches(d, p, s);
    if |matches| == 0 {
      return Halt(Trace([], [], [], s));
    }
    if |matches| > 1 {
      var candidates: seq<PuzzleCandidate> := [];
      for j := 0 to |matches|
        invariant candidates == AmbiguousCandidates(matches[..j])
      {
        candidates := candidates + [CandidateFromMatch(matches[j], Ambiguous)];
        assert AmbiguousCandidates(matches[..j + 1]) == AmbiguousCandidates(matches[..j]) + [CandidateFromMatch(matches[j], Ambiguous)];
      }
      assert matches[..|matches|] == matches;
      return Halt(Trace([], candidates, [AmbiguousLayer(MatchNames(matches))], s));
    }
    var matched := matches[0];
    var currentHash := d.curriedPuzzleHash(p);
    var w := WrapperFor(d, p, matched);
    var c := CandidateFromMatch(matched, if matched.parseError.Some? then MatchedWithError else Clean);
    var l := Peeled(Name(matched.kind), SourcePath(matched.kind), matched.solution);
    if matched.nextPuzzle.None? {
      return Halt(Trace([w], [c], [l], matched.nextSolution));
    }
    var nextPuzzle := matched.nextPuzzle.value;
    if d.curriedPuzzleHash(nextPuzzle) == currentHash {
      return Halt(Trace([w], [c], [l, Stopped(CycleReason)], matched.nextSolution));
    }
    return Descend(w, c, l, nextPuzzle, matched.nextSolution);
  }

  /** `recognize_puzzle_and_solution`. */
  method RecognizePuzzleAndSolution<P, T>(d: Driver<P, T>, puzzle: Result<P, string>, solution: Option<T>)
    returns (r: PuzzleRecognition<T>)
    ensures r == Recognition(d, puzzle, solution)
    ensures r.recognized <==> r.wrappers != []
    ensures |r.wrappers| <= MaxLayerDepth && |r.wrappers| <= |r.candidates|
  {
    if puzzle.Err? {
      return PuzzleRecognition(false, [], [], Some(PuzzleDecodeFailed(PuzzleDecodePrefix + puzzle.error)));
    }
    var solutionDecodeError: Option<string> := if solution.None? then Some(SolutionDecodeError) else None;
    var currentPuzzle := puzzle.value;
    var currentSolution := solution;
    var wrappers: seq<WrapperInfo> := [];
    var candidates: seq<PuzzleCandidate> := [];
    var solutionLayers: seq<SolutionLayer> := [];
    ghost var goal := Walk(Rounds(d), currentPuzzle, currentSolution, MaxLayerDepth);
    ghost var roundsLeft := MaxLayerDepth;
    assert Prepend(wrappers, candidates, solutionLayers, goal) == goal;

    for i := 0 to MaxLayerDepth
      invariant roundsLeft == MaxLayerDepth - i
      invariant Prepend(wrappers, candidates, solutionLayers, Walk(Rounds(d), currentPuzzle, currentSolution, roundsLeft))
                == goal
    {
      var outcome := PlayRound(d, currentPuzzle, currentSolution);
      assert Rounds(d)(currentPuzzle, currentSolution) == outcome;
      if outcome.Halt? {
        HaltStep(Rounds(d), currentPuzzle, currentSolution, roundsLeft, wrappers, candidates, solutionLayers);
        wrappers, candidates := wrappers + outcome.t.wrappers, candidates + outcome.t.candidates;
        solutionLayers, currentSolution := solutionLayers + outcome.t.layers, outcome.t.remaining;
        break;
      }
      DescendStep(Rounds(d), currentPuzzle, currentSolution, roundsLeft, wrappers, candidates, solutionLayers);
      roundsLeft := roundsLeft - 1;
      wrappers, candidates := wrappers + [outcome.w], candidates + [outcome.c];
      solutionLayers := solutionLayers + [outcome.l];
      currentPuzzle, currentSolution := outcome.next, outcome.nextSolution;
    }
    assert Trace(wrappers, candidates, solutionLayers, currentSolution) == goal;

    var parsedSolution := if solutionLayers == [] && solutionDecodeError.None? then None
                          else Some(Peeling(solutionLayers, currentSolution, solutionDecodeError));
    r := PuzzleRecognition(wrappers != [], candidates, wrappers, parsedSolution);
    PeelShape(d, puzzle.value, solution, MaxLayerDepth);
  }

  /** A round that halts ends the walk with the lists it appends. */
  lemma HaltStep<P, T>(round: (P, Option<T>) -> Outcome<P, T>, p: P, s: Option<T>, fuel: nat,
                       wrappers: seq<WrapperInfo>, candidates: seq<PuzzleCandidate>, layers: seq<SolutionLayer>)
    requires fuel > 0 && round(p, s).Halt?
    ensures Prepend(wrappers, candidates, layers, Walk(round, p, s, fuel))
            == Trace(wrappers + round(p, s).t.wrappers, candidates + round(p, s).t.candidates,
                     layers + round(p, s).t.layers, round(p, s).t.remaining)
  {
  }

  /** A round that descends appends one entry to each list and leaves the
      rest of the walk to the inner puzzle, with one round fewer. */
  lemma DescendStep<P, T>(round: (P, Option<T>) -> Outcome<P, T>, p: P, s: Option<T>, fuel: nat,
                          wrappers: seq<WrapperInfo>, candidates: seq<PuzzleCandidate>, layers: seq<SolutionLayer>)
    requires fuel > 0 && round(p, s).Descend?
    ensures Prepend(wrappers, candidates, layers, Walk(round, p, s, fuel))
            == Prepend(wrappers + [round(p, s).w], candidates + [round(p, s).c], layers + [round(p, s).l],
                       Walk(round, round(p, s).next, round(p, s).nextSolution, fuel - 1))
  {
    var r := round(p, s);
    PrependAssociative(wrappers, candidates, layers, [r.w], [r.c], [r.l], Walk(round, r.next, r.nextSolution, fuel - 1));
  }

  /** The lists gathered so far followed by what the rest of the walk adds. */
  function Prepend<T>(wrappers: seq<WrapperInfo>, candidates: seq<PuzzleCandidate>, layers: seq<SolutionLayer>,
                      rest: Trace<T>): (t: Trace<T>)
    ensures t.remaining == rest.remaining
    ensures |t.wrappers| == |wrappers| + |rest.wrappers| && |t.candidates| == |candidates| + |rest.candidates|
  {
    Trace(wrappers + rest.wrappers, candidates + rest.candidates, layers + rest.layers, rest.remaining)
  }

  lemma PrependAssociative<T>(w0: seq<WrapperInfo>, c0: seq<PuzzleCandidate>, l0: seq<SolutionLayer>,
                              w1: seq<WrapperInfo>, c1: seq<PuzzleCandidate>, l1: seq<SolutionLayer>, rest: Trace<T>)
    ensures Prepend(w0, c0, l0, Prepend(w1, c1, l1, rest)) == Prepend(w0 + w1, c0 + c1, l0 + l1, rest)
  {
    assert w0 + (w1 + rest.wrappers) == (w0 + w1) + rest.wrappers;
    assert c0 + (c1 + rest.candidates) == (c0 + c1) + rest.candidates;
    assert l0 + (l1 + rest.layers) == (l0 + l1) + rest.layers;
  }

  /** A wrapper and the candidate recorded beside it: same name, and
      confidence 0.8 exactly when the layer's solution failed to parse. */
  predicate Paired(w: WrapperInfo, c: PuzzleCandidate)
  {
    c.name == w.name && c.confidence == (if w.parseError.Some? then MatchedWithError else Clean)
  }

  /** The shape of the three lists: the first candidates pair up with the
      wrappers; any further candidates are the options of an ambiguous
      round, at 0.5, and there are never exactly one of them. */
  ghost predicate WellShaped<T>(t: Trace<T>)
  {
    && |t.wrappers| <= |t.candidates|
    && (forall i :: 0 <= i < |t.wrappers| ==> Paired(t.wrappers[i], t.candidates[i]))
    && (forall i :: |t.wrappers| <= i < |t.candidates| ==> t.candidates[i].confidence == Ambiguous)
    && |t.candidates| != |t.wrappers| + 1
  }

  /** A round records at most one wrapper, always with its candidate, and
      descends only through a layer that reported an inner puzzle. */
  ghost predicate ShapedRound<P, T>(o: Outcome<P, T>)
  {
    && (o.Halt? ==> WellShaped(o.t) && |o.t.wrappers| <= 1)
    && (o.Descend? ==> Paired(o.w, o.c) && o.w.innerPuzzleTreeHash.Some?)
  }

  lemma RoundShape<P, T>(d: Driver<P, T>, p: P, s: Option<T>)
    ensures ShapedRound(Round(d, p, s))
  {
    var ms := Matches(d, p, s);
    var r := Round(d, p, s);
    if |ms| > 1 {
      assert r.t == Trace([], AmbiguousCandidates(ms), [AmbiguousLayer(MatchNames(ms))], s);
    } else if |ms| == 1 {
      var m := ms[0];
      var w, c := WrapperFor(d, p, m), CandidateFromMatch(m, ConfidenceOf(m));
      assert Paired(w, c);
      assert r.Halt? ==> r.t.wrappers == [w] && r.t.candidates == [c];
      assert r.Descend? ==> r.w == w && r.c == c && m.nextPuzzle.Some?;
    }
  }

  lemma PrependShape<T>(w: WrapperInfo, c: PuzzleCandidate, l: SolutionLayer, rest: Trace<T>)
    requires Paired(w, c) && WellShaped(rest)
    ensures WellShaped(Prepend([w], [c], [l], rest))
  {
    var t := Prepend([w], [c], [l], rest);
    forall i | 1 <= i < |t.wrappers| ensures Paired(t.wrappers[i], t.candidates[i]) {
      assert t.wrappers[i] == rest.wrappers[i - 1] && t.candidates[i] == rest.candidates[i - 1];
    }
    forall i | |t.wrappers| <= i < |t.candidates| ensures t.candidates[i].confidence == Ambiguous {
      assert t.candidates[i] == rest.candidates[i - 1];
    }
  }

  /** A walk of rounds that are all shaped so is well shaped, records at
      most one wrapper per round, and every wrapper but the last reported an
      inner puzzle. */
  lemma {:induction false} WalkShape<P, T>(round: (P, Option<T>) -> Outcome<P, T>, p: P, s: Option<T>, fuel: nat)
    requires forall p': P, s': Option<T> :: ShapedRound(round(p', s'))
    ensures WellShaped(Walk(round, p, s, fuel))
    ensures |Walk(round, p, s, fuel).wrappers| <= fuel
    ensures forall i :: 0 <= i < |Walk(round, p, s, fuel).wrappers| - 1 ==>
              Walk(round, p, s, fuel).wrappers[i].innerPuzzleTreeHash.Some?
    decreases fuel
  {
    if fuel > 0 {
      assert ShapedRound(round(p, s));
      match round(p, s)
      case Halt(t) =>
      case Descend(w, c, l, q, s') =>
        var rest := Walk(round, q, s', fuel - 1);
        WalkShape(round, q, s', fuel - 1);
        PrependShape(w, c, l, rest);
        var t := Walk(round, p, s, fuel);
        assert t == Prepend([w], [c], [l], rest);
        forall i | 1 <= i < |t.wrappers| - 1 ensures t.wrappers[i].innerPuzzleTreeHash.Some? {
          assert t.wrappers[i] == rest.wrappers[i - 1];
        }
    }
  }

  /** Every walk of the loop is well shaped, records at most one wrapper per
      round, and goes on only through layers that wrap an inner puzzle. */
  lemma PeelShape<P, T>(d: Driver<P, T>, p: P, s: Option<T>, fuel: nat)
    ensures WellShaped(Peel(d, p, s, fuel))
    ensures |Peel(d, p, s, fuel).wrappers| <= fuel
    ensures forall i :: 0 <= i < |Peel(d, p, s, fuel).wrappers| - 1 ==>
              Peel(d, p, s, fuel).wrappers[i].innerPuzzleTreeHash.Some?
  {
    forall p': P, s': Option<T> ensures ShapedRound(Rounds(d)(p', s')) {
      RoundShape(d, p', s');
    }
    WalkShape(Rounds(d), p, s, fuel);
  }

  /** The templates that match, and what they pass down as the inner
      puzzle, depend on the puzzle alone. */
  lemma {:induction false} MatchesKindsIndependent<P, T>(d: Driver<P, T>, kinds: seq<LayerKind>, p: P,
                                                        s: Option<T>, s': Option<T>)
    ensures |MatchesOf(d, kinds, p, s)| == |MatchesOf(d, kinds, p, s')|
    ensures forall i :: 0 <= i < |MatchesOf(d, kinds, p, s)| ==>
              && MatchesOf(d, kinds, p, s)[i].kind == MatchesOf(d, kinds, p, s')[i].kind
              && MatchesOf(d, kinds, p, s)[i].nextPuzzle == MatchesOf(d, kinds, p, s')[i].nextPuzzle
  {
    if kinds != [] {
      MatchesKindsIndependent(d, kinds[1..], p, s, s');
      var rest, rest' := MatchesOf(d, kinds[1..], p, s), MatchesOf(d, kinds[1..], p, s');
      var m, m' := TryLayer(d, kinds[0], p, s), TryLayer(d, kinds[0], p, s');
      assert m.Some? == m'.Some?;
      if m.Some? {
        assert MatchesOf(d, kinds, p, s) == [m.value] + rest;
        assert MatchesOf(d, kinds, p, s') == [m'.value] + rest';
      }
    }
  }

  /** Two traces record the same layer names and the same number of
      candidates. */
  predicate SameLayers<T>(t: Trace<T>, t': Trace<T>)
  {
    && |t.wrappers| == |t'.wrappers|
    && |t.candidates| == |t'.candidates|
    && forall i :: 0 <= i < |t.wrappers| ==> t.wrappers[i].name == t'.wrappers[i].name
  }

  /** Two rounds end the same way, with the same layer names, and descend
      into the same inner puzzle. */
  ghost predicate SameRound<P, T>(r: Outcome<P, T>, r': Outcome<P, T>)
  {
    && r.Halt? == r'.Halt?
    && (r.Halt? ==> SameLayers(r.t, r'.t))
    && (r.Descend? ==> r.w.name == r'.w.name && r.next == r'.next)
  }

  /** A round over the same puzzle with another solution ends the same way. */
  lemma RoundIndependent<P, T>(d: Driver<P, T>, p: P, s: Option<T>, s': Option<T>)
    ensures SameRound(Round(d, p, s), Round(d, p, s'))
  {
    var ms, ms' := Matches(d, p, s), Matches(d, p, s');
    MatchesKindsIndependent(d, Catalog, p, s, s');
    var r, r' := Round(d, p, s), Round(d, p, s');
    if |ms| > 1 {
      assert r.t.candidates == AmbiguousCandidates(ms) && r'.t.candidates == AmbiguousCandidates(ms');
    } else if |ms| == 1 {
      assert ms[0].kind == ms'[0].kind && ms[0].nextPuzzle == ms'[0].nextPuzzle;
      var w, w' := WrapperFor(d, p, ms[0]), WrapperFor(d, p, ms'[0]);
      assert w.name == w'.name;
      assert r.Halt? ==> r.t.wrappers == [w] && r'.t.wrappers == [w'] && |r.t.candidates| == |r'.t.candidates| == 1;
    }
  }

  lemma PrependSameLayers<T>(w: WrapperInfo, c: PuzzleCandidate, l: SolutionLayer, rest: Trace<T>,
                             w': WrapperInfo, c': PuzzleCandidate, l': SolutionLayer, rest': Trace<T>)
    requires w.name == w'.name && SameLayers(rest, rest')
    ensures SameLayers(Prepend([w], [c], [l], rest), Prepend([w'], [c'], [l'], rest'))
  {
    var t, t' := Prepend([w], [c], [l], rest), Prepend([w'], [c'], [l'], rest');
    forall i | 1 <= i < |t.wrappers| ensures t.wrappers[i].name == t'.wrappers[i].name {
      assert t.wrappers[i] == rest.wrappers[i - 1];
      assert t'.wrappers[i] == rest'.wrappers[i - 1];
    }
  }

  /** Walks whose rounds do not depend on the solution find the same layers
      whatever solution they start from. */
  lemma {:induction false} WalkIndependent<P, T>(round: (P, Option<T>) -> Outcome<P, T>, p: P,
                                                s: Option<T>, s': Option<T>, fuel: nat)
    requires forall p0: P, s0: Option<T>, s1: Option<T> :: SameRound(round(p0, s0), round(p0, s1))
    ensures SameLayers(Walk(round, p, s, fuel), Walk(round, p, s', fuel))
    decreases fuel
  {
    if fuel > 0 {
      var r, r' := round(p, s), round(p, s');
      assert SameRound(r, r');
      if r.Descend? {
        WalkIndependent(round, r.next, r.nextSolution, r'.nextSolution, fuel - 1);
        PrependSameLayers(r.w, r.c, r.l, Walk(round, r.next, r.nextSolution, fuel - 1),
                          r'.w, r'.c, r'.l, Walk(round, r.next, r'.nextSolution, fuel - 1));
      }
    }
  }

  /** The solution never decides which layers are found: the templates
      match on the puzzle alone and the inner puzzle comes from the puzzle,
      so two walks over the same puzzle find the same layers in the same
      order, and the same number of candidates. */
  lemma LayersDoNotDependOnSolution<P, T>(d: Driver<P, T>, p: P, s: Option<T>, s': Option<T>, fuel: nat)
    ensures SameLayers(Peel(d, p, s, fuel), Peel(d, p, s', fuel))
  {
    forall p0: P, s0: Option<T>, s1: Option<T> ensures SameRound(Rounds(d)(p0, s0), Rounds(d)(p0, s1)) {
      RoundIndependent(d, p0, s0, s1);
    }
    WalkIndependent(Rounds(d), p, s, s', fuel);
  }

  /** Without a solution no layer fails to parse one, and none is passed
      down. */
  ghost predicate NoSolutionRound<P, T>(o: Outcome<P, T>)
  {
    && (o.Halt? ==> o.t.remaining.None? && forall i :: 0 <= i < |o.t.wrappers| ==> o.t.wrappers[i].parseError.None?)
    && (o.Descend? ==> o.w.parseError.None? && o.nextSolution.None?)
  }

  lemma RoundWithoutSolution<P, T>(d: Driver<P, T>, p: P)
    ensures NoSolutionRound(Round(d, p, None))
  {
    var ms := Matches(d, p, None);
    if |ms| == 1 {
      MatchesOfFacts(d, Catalog, p, None);
      assert ms[0] in ms;
    }
  }

  lemma {:induction false} WalkWithoutSolution<P, T>(round: (P, Option<T>) -> Outcome<P, T>, p: P, fuel: nat)
    requires forall p': P :: NoSolutionRound(round(p', None))
    ensures forall i :: 0 <= i < |Walk(round, p, None, fuel).wrappers| ==> Walk(round, p, None, fuel).wrappers[i].parseError.None?
    ensures Walk(round, p, None, fuel).remaining.None?
    decreases fuel
  {
    if fuel > 0 {
      assert NoSolutionRound(round(p, None));
      match round(p, None)
      case Halt(t) =>
      case Descend(w, c, l, q, s') =>
        var rest := Walk(round, q, None, fuel - 1);
        WalkWithoutSolution(round, q, fuel - 1);
        var t := Walk(round, p, None, fuel);
        assert t.wrappers == [w] + rest.wrappers;
        forall i | 1 <= i < |t.wrappers| ensures t.wrappers[i].parseError.None? {
          assert t.wrappers[i] == rest.wrappers[i - 1];
        }
    }
  }

  /** With no solution (it failed to decode) the walk still descends, and no
      layer reports a parse error: every template reports a missing
      solution instead and passes none down. */
  lemma MissingSolutionNeverFails<P, T>(d: Driver<P, T>, p: P, fuel: nat)
    ensures forall i :: 0 <= i < |Peel(d, p, None, fuel).wrappers| ==> Peel(d, p, None, fuel).wrappers[i].parseError.None?
    ensures Peel(d, p, None, fuel).remaining.None?
  {
    forall p': P ensures NoSolutionRound(Rounds(d)(p', None)) {
      RoundWithoutSolution(d, p');
    }
    WalkWithoutSolution(Rounds(d), p, fuel);
  }

  /** When no template recognises the puzzle, no list of templates matches. */
  lemma {:induction false} NoTemplateMatches<P, T>(d: Driver<P, T>, kinds: seq<LayerKind>, p: P, s: Option<T>)
    requires forall k :: d.parsePuzzle(k, p).None?
    ensures MatchesOf(d, kinds, p, s) == []
  {
    if kinds != [] {
      NoTemplateMatches(d, kinds[1..], p, s);
    }
  }

  /** When only template `k` recognises the puzzle, a list of templates
      without repeats matches once if it lists `k` and not at all otherwise. */
  lemma {:induction false} OneTemplateMatches<P, T>(d: Driver<P, T>, kinds: seq<LayerKind>, p: P, s: Option<T>,
                                                   k: LayerKind)
    requires forall i, j :: 0 <= i < j < |kinds| ==> Rank(kinds[i]) < Rank(kinds[j])
    requires forall k' :: d.parsePuzzle(k', p).Some? <==> k' == k
    ensures MatchesOf(d, kinds, p, s) == if k in kinds then [TryLayer(d, k, p, s).value] else []
  {
    if kinds != [] {
      OneTemplateMatches(d, kinds[1..], p, s, k);
      if kinds[0] == k {
        assert k !in kinds[1..] by {
          forall j | 0 <= j < |kinds[1..]| ensures kinds[1..][j] != k {
            assert Rank(kinds[0]) < Rank(kinds[j + 1]);
          }
        }
      } else {
        assert k in kinds <==> k in kinds[1..] by {
          assert kinds == [kinds[0]] + kinds[1..];
        }
      }
    }
  }

  /** When exactly template `k` matches the puzzle, the round has exactly
      that match. */
  lemma SingleMatch<P, T>(d: Driver<P, T>, p: P, s: Option<T>, k: LayerKind)
    requires forall k' :: d.parsePuzzle(k', p).Some? <==> k' == k
    ensures Matches(d, p, s) == [TryLayer(d, k, p, s).value]
  {
    CatalogIsAnOrdering();
    OneTemplateMatches(d, Catalog, p, s, k);
  }

  /** A puzzle that fails to decode is not recognised and has no candidates
      or wrappers; its parsed solution carries the decoder's message. */
  lemma UndecodablePuzzle<P, T>(d: Driver<P, T>, e: string, s: Option<T>)
    ensures Recognition(d, Err(e), s).recognized == false
    ensures Recognition(d, Err(e), s).candidates == [] && Recognition(d, Err(e), s).wrappers == []
    ensures Recognition(d, Err(e), s).parsedSolution == Some(PuzzleDecodeFailed(PuzzleDecodePrefix + e))
  {
  }

  /** A puzzle no template matches (the nil puzzle, for one) is not
      recognised, has no candidates, and has no parsed solution unless the
      solution failed to decode. */
  lemma UnmatchedPuzzle<P, T>(d: Driver<P, T>, p: P, s: Option<T>)
    requires forall k :: d.parsePuzzle(k, p).None?
    ensures Recognition(d, Ok(p), s).recognized == false
    ensures Recognition(d, Ok(p), s).candidates == [] && Recognition(d, Ok(p), s).wrappers == []
    ensures Recognition(d, Ok(p), s).parsedSolution.None? <==> s.Some?
  {
    NoTemplateMatches(d, Catalog, p, s);
  }

  /** Two or more templates matching the same puzzle: every one of them
      becomes a candidate at 0.5 in catalog order, no wrapper is recorded
      and the walk stops there. */
  lemma AmbiguousRound<P, T>(d: Driver<P, T>, p: P, s: Option<T>, fuel: nat)
    requires fuel > 0 && |Matches(d, p, s)| >= 2
    ensures Peel(d, p, s, fuel).wrappers == []
    ensures |Peel(d, p, s, fuel).candidates| == |Matches(d, p, s)|
    ensures forall i :: 0 <= i < |Matches(d, p, s)| ==>
              Peel(d, p, s, fuel).candidates[i].name == Name(Matches(d, p, s)[i].kind)
              && Peel(d, p, s, fuel).candidates[i].confidence == Ambiguous
    ensures Peel(d, p, s, fuel).layers == [AmbiguousLayer(MatchNames(Matches(d, p, s)))]
  {
  }

  /** A single match whose inner puzzle hashes like the puzzle itself: its
      wrapper is kept, a "stopped" layer is added, and the walk ends. */
  lemma HashCycleStops<P, T>(d: Driver<P, T>, p: P, s: Option<T>, fuel: nat)
    requires fuel > 0 && |Matches(d, p, s)| == 1
    requires Matches(d, p, s)[0].nextPuzzle.Some?
    requires d.curriedPuzzleHash(Matches(d, p, s)[0].nextPuzzle.value) == d.curriedPuzzleHash(p)
    ensures |Peel(d, p, s, fuel).wrappers| == 1
    ensures Peel(d, p, s, fuel).wrappers[0].name == Name(Matches(d, p, s)[0].kind)
    ensures |Peel(d, p, s, fuel).layers| == 2 && Peel(d, p, s, fuel).layers[1] == Stopped(CycleReason)
  {
  }

  /** A CAT layer around a standard puzzle: two wrappers, outermost first,
      and two full-confidence candidates when both solutions parse. */
  lemma {:induction false} CatAroundStandard<P, T>(d: Driver<P, T>, p: P, q: P, s: T, inner: T)
    requires forall k :: d.parsePuzzle(k, p).Some? <==> k == Cat
    requires d.parsePuzzle(Cat, p).value.inner == q
    requires d.curriedPuzzleHash(q) != d.curriedPuzzleHash(p)
    requires forall k :: d.parsePuzzle(k, q).Some? <==> k == Standard
    requires d.parseSolution(Cat, s).Parsed? && d.parseSolution(Cat, s).inner == Some(inner)
    requires d.parseSolution(Standard, inner).Parsed?
    ensures Recognition(d, Ok(p), Some(s)).recognized
    ensures |Recognition(d, Ok(p), Some(s)).wrappers| == 2
    ensures Recognition(d, Ok(p), Some(s)).wrappers[0].name == "cat_layer"
    ensures Recognition(d, Ok(p), Some(s)).wrappers[1].name == "standard_layer"
    ensures |Recognition(d, Ok(p), Some(s)).candidates| == 2
    ensures Recognition(d, Ok(p), Some(s)).candidates[0].confidence == Clean
    ensures Recognition(d, Ok(p), Some(s)).candidates[1].confidence == Clean
  {
    SingleMatch(d, p, Some(s), Cat);
    SingleMatch(d, q, Some(inner), Standard);
    var outer := Round(d, p, Some(s));
    assert outer == Descend(outer.w, outer.c, outer.l, q, Some(inner));
    var rest := Peel(d, q, Some(inner), MaxLayerDepth - 1);
    assert rest == Round(d, q, Some(inner)).t;
    assert |rest.wrappers| == 1 && rest.wrappers[0].name == "standard_layer";
  }

  /** The standard template on a solution the library cannot parse. */
  lemma StandardBadSolutionMatch<P, T>(d: Driver<P, T>, p: P, s: T)
    requires d.parsePuzzle(Standard, p).Some? && d.parseSolution(Standard, s).ParseFailed?
    ensures TryLayer(d, Standard, p, Some(s))
         == Some(LayerMatch(Standard, d.parsePuzzle(Standard, p).value.params, None, None,
                            SolutionError(d.parseSolution(Standard, s).message),
                            Some("failed to parse standard solution: " + d.parseSolution(Standard, s).message)))
  {
    assert "failed to parse " + "standard" + " solution: " == "failed to parse standard solution: ";
  }

  /** A standard puzzle whose solution does not parse: recognised, with one
      candidate at 0.8 and the parse error on its wrapper. */
  lemma {:induction false} StandardWithBadSolution<P, T>(d: Driver<P, T>, p: P, s: T)
    requires forall k :: d.parsePuzzle(k, p).Some? <==> k == Standard
    requires d.parseSolution(Standard, s).ParseFailed?
    ensures Recognition(d, Ok(p), Some(s)).recognized
    ensures |Recognition(d, Ok(p), Some(s)).candidates| == 1
    ensures Recognition(d, Ok(p), Some(s)).candidates[0].confidence == MatchedWithError
    ensures Recognition(d, Ok(p), Some(s)).wrappers[0].parseError
            == Some("failed to parse standard solution: " + d.parseSolution(Standard, s).message)
  {
    SingleMatch(d, p, Some(s), Standard);
    StandardBadSolutionMatch(d, p, s);
    var m := TryLayer(d, Standard, p, Some(s)).value;
    var r := Round(d, p, Some(s));
    assert r == Halt(Trace([WrapperFor(d, p, m)], [CandidateFromMatch(m, MatchedWithError)],
                           [Peeled(Name(Standard), SourcePath(Standard), m.solution)], None));
    assert Peel(d, p, Some(s), MaxLayerDepth) == r.t;
  }
}
