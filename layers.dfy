/** The catalog of puzzle-layer templates of
    crates/chia-inspect-core/src/recognize.rs. Each template asks the
    chia_sdk_driver library whether a puzzle is an instance of one layer and,
    if so, how to read its solution. The library is outside this model: it is
    a `Driver`, a record of functions, over an abstract puzzle type `P` and an
    abstract solution type `T`. What the templates themselves decide is
    modelled: the name and source path reported for each layer, which layers
    are leaves, and how a missing or unreadable solution shapes the match. */
module Layers {
  import opened Wrappers
  import opened Json
  import opened Hex

  /** The seventeen templates, in the order `collect_matches` tries them. */
  datatype LayerKind =
    | Cat
    | Singleton
    | Did
    | NftState
    | NftOwnership
    | RoyaltyTransfer
    | AugmentedCondition
    | Bulletin
    | OptionContract
    | Revocation
    | P2Singleton
    | P2Curried
    | P2OneOfMany
    | P2DelegatedConditions
    | Settlement
    | Stream
    | Standard

  const Catalog: seq<LayerKind> := [
    Cat, Singleton, Did, NftState, NftOwnership, RoyaltyTransfer, AugmentedCondition,
    Bulletin, OptionContract, Revocation, P2Singleton, P2Curried, P2OneOfMany,
    P2DelegatedConditions, Settlement, Stream, Standard]

  /** The position of a template in the catalog. */
  function Rank(k: LayerKind): (n: nat)
    ensures n < |Catalog| && Catalog[n] == k
  {
    match k
    case Cat => 0
    case Singleton => 1
    case Did => 2
    case NftState => 3
    case NftOwnership => 4
    case RoyaltyTransfer => 5
    case AugmentedCondition => 6
    case Bulletin => 7
    case OptionContract => 8
    case Revocation => 9
    case P2Singleton => 10
    case P2Curried => 11
    case P2OneOfMany => 12
    case P2DelegatedConditions => 13
    case Settlement => 14
    case Stream => 15
    case Standard => 16
  }

  /** The catalog lists every template exactly once. */
  lemma CatalogIsAnOrdering()
    ensures |Catalog| == 17
    ensures forall k: LayerKind :: k in Catalog
    ensures forall i :: 0 <= i < |Catalog| ==> Rank(Catalog[i]) == i
    ensures forall i, j :: 0 <= i < j < |Catalog| ==> Rank(Catalog[i]) < Rank(Catalog[j])
  {
    forall k: LayerKind ensures k in Catalog {
      assert Catalog[Rank(k)] == k;
    }
  }

  /** The `name` a template reports. */
  function Name(k: LayerKind): string
  {
    match k
    case Cat => "cat_layer"
    case Singleton => "singleton_layer"
    case Did => "did_layer"
    case NftState => "nft_state_layer"
    case NftOwnership => "nft_ownership_layer"
    case RoyaltyTransfer => "royalty_transfer_layer"
    case AugmentedCondition => "augmented_condition_layer"
    case Bulletin => "bulletin_layer"
    case OptionContract => "option_contract_layer"
    case Revocation => "revocation_layer"
    case P2Singleton => "p2_singleton_layer"
    case P2Curried => "p2_curried_layer"
    case P2OneOfMany => "p2_one_of_many_layer"
    case P2DelegatedConditions => "p2_delegated_conditions_layer"
    case Settlement => "settlement_layer"
    case Stream => "stream_layer"
    case Standard => "standard_layer"
  }

  /** The file of chia-wallet-sdk that defines the layer. The stream layer
      lives in `streaming_layer.rs`, not `stream_layer.rs`. */
  function SourcePath(k: LayerKind): string
  {
    "crates/chia-sdk-driver/src/layers/" + match k
      case Cat => "cat_layer.rs"
      case Singleton => "singleton_layer.rs"
      case Did => "did_layer.rs"
      case NftState => "nft_state_layer.rs"
      case NftOwnership => "nft_ownership_layer.rs"
      case RoyaltyTransfer => "royalty_transfer_layer.rs"
      case AugmentedCondition => "augmented_condition_layer.rs"
      case Bulletin => "bulletin_layer.rs"
      case OptionContract => "option_contract_layer.rs"
      case Revocation => "revocation_layer.rs"
      case P2Singleton => "p2_singleton_layer.rs"
      case P2Curried => "p2_curried_layer.rs"
      case P2OneOfMany => "p2_one_of_many_layer.rs"
      case P2DelegatedConditions => "p2_delegated_conditions_layer.rs"
      case Settlement => "settlement_layer.rs"
      case Stream => "streaming_layer.rs"
      case Standard => "standard_layer.rs"
  }

  /** How a template names its layer in a solution parse error; the royalty
      transfer layer never parses a solution. */
  function SolutionNoun(k: LayerKind): Option<string>
  {
    match k
    case Cat => Some("CAT")
    case Singleton => Some("singleton")
    case Did => Some("DID")
    case NftState => Some("NFT state")
    case NftOwnership => Some("NFT ownership")
    case RoyaltyTransfer => None
    case AugmentedCondition => Some("augmented condition")
    case Bulletin => Some("bulletin")
    case OptionContract => Some("option contract")
    case Revocation => Some("revocation")
    case P2Singleton => Some("p2_singleton")
    case P2Curried => Some("p2_curried")
    case P2OneOfMany => Some("p2_one_of_many")
    case P2DelegatedConditions => Some("p2_delegated_conditions")
    case Settlement => Some("settlement")
    case Stream => Some("stream")
    case Standard => Some("standard")
  }

  /** Outer layers wrap an inner puzzle and pass an inner solution down;
      leaves end the descent. */
  predicate IsWrapping(k: LayerKind)
  {
    k in {Cat, Singleton, Did, NftState, NftOwnership, AugmentedCondition, Bulletin, OptionContract}
  }

  /** What the library's `parse_puzzle` yields for a matching puzzle: the
      layer's parameters as JSON and, for wrapping layers, the inner puzzle. */
  datatype ParsedPuzzle<P> = ParsedPuzzle(params: map<string, Value>, inner: P)

  /** What the library's `parse_solution` yields: the solution's fields and
      the inner solution to pass down (absent only for a DID recovery
      spend), or the library's error message. */
  datatype SolutionParse<T> =
    | Parsed(inner: Option<T>, fields: map<string, Value>)
    | ParseFailed(message: string)

  /** chia_sdk_driver and the tree hasher, as uninterpreted functions. Puzzle
      hashes are byte strings and need not be injective. */
  datatype Driver<!P, !T> = Driver(
    parsePuzzle: (LayerKind, P) -> Option<ParsedPuzzle<P>>,
    parseSolution: (LayerKind, T) -> SolutionParse<T>,
    curriedPuzzleHash: P -> seq<byte>,
    modHash: P -> seq<byte>,
    curriedArgsHash: P -> Option<seq<byte>>)

  /** The `solution` JSON of a match, reduced to its status. */
  datatype SolutionStatus =
    | SolutionOk(fields: map<string, Value>)
    | SolutionError(message: string)
    | MissingSolution
    | Unsupported

  datatype LayerMatch<P, T> = LayerMatch(
    kind: LayerKind,
    params: map<string, Value>,
    nextPuzzle: Option<P>,
    nextSolution: Option<T>,
    solution: SolutionStatus,
    parseError: Option<string>)

  /** The `try_*_layer` template for `kind`. A puzzle the library does not
      recognise gives no match. Otherwise the match always exists, whatever
      the solution: a missing solution is reported as such, a solution the
      library cannot parse sets `parse_error`, and only a wrapping layer
      whose solution parses passes an inner puzzle and solution down. */
  function TryLayer<P, T>(d: Driver<P, T>, kind: LayerKind, puzzle: P, solution: Option<T>)
    : (r: Option<LayerMatch<P, T>>)
    ensures r.Some? <==> d.parsePuzzle(kind, puzzle).Some?
    ensures r.Some? ==> r.value.kind == kind && r.value.params == d.parsePuzzle(kind, puzzle).value.params
    ensures r.Some? ==> (r.value.nextPuzzle.Some? <==> IsWrapping(kind))
    ensures r.Some? && IsWrapping(kind) ==> r.value.nextPuzzle == Some(d.parsePuzzle(kind, puzzle).value.inner)
    ensures r.Some? && r.value.nextSolution.Some? ==> IsWrapping(kind) && solution.Some?
    ensures r.Some? && solution.None? ==> r.value.parseError.None? && r.value.nextSolution.None?
    ensures r.Some? && solution.None? && kind != RoyaltyTransfer ==> r.value.solution == MissingSolution
    ensures r.Some? && kind == RoyaltyTransfer ==>
              r.value.solution == Unsupported && r.value.parseError.None? && r.value.nextSolution.None?
    ensures r.Some? ==> (r.value.parseError.Some? <==>
              kind != RoyaltyTransfer && solution.Some? && d.parseSolution(kind, solution.value).ParseFailed?)
    ensures r.Some? && r.value.parseError.Some? ==>
              r.value.nextSolution.None? && r.value.solution.SolutionError?
    ensures r.Some? && kind != RoyaltyTransfer && solution.Some? && d.parseSolution(kind, solution.value).Parsed? ==>
              r.value.solution == SolutionOk(d.parseSolution(kind, solution.value).fields)
              && r.value.nextSolution == (if IsWrapping(kind) then d.parseSolution(kind, solution.value).inner else None)
    ensures r.Some? && kind != RoyaltyTransfer && solution.Some? && d.parseSolution(kind, solution.value).ParseFailed? ==>
              r.value.solution == SolutionError(d.parseSolution(kind, solution.value).message)
              && r.value.parseError == Some("failed to parse " + SolutionNoun(kind).value + " solution: "
                                            + d.parseSolution(kind, solution.value).message)
  {
    match d.parsePuzzle(kind, puzzle)
    case None => None
    case Some(layer) =>
      var next := if IsWrapping(kind) then Some(layer.inner) else None;
      match SolutionNoun(kind)
      case None =>
        Some(LayerMatch(kind, layer.params, next, None, Unsupported, None))
      case Some(noun) =>
        match solution
        case None =>
          Some(LayerMatch(kind, layer.params, next, None, MissingSolution, None))
        case Some(s) =>
          match d.parseSolution(kind, s)
          case Parsed(inner, fields) =>
            Some(LayerMatch(kind, layer.params, next, if IsWrapping(kind) then inner else None,
                            SolutionOk(fields), None))
          case ParseFailed(message) =>
            Some(LayerMatch(kind, layer.params, next, None, SolutionError(message),
                            Some("failed to parse " + noun + " solution: " + message)))
  }

  /** The matches of the templates `kinds`, tried in order. */
  function MatchesOf<P, T>(d: Driver<P, T>, kinds: seq<LayerKind>, puzzle: P, solution: Option<T>)
    : seq<LayerMatch<P, T>>
  {
    if kinds == [] then []
    else
      var rest := MatchesOf(d, kinds[1..], puzzle, solution);
      match TryLayer(d, kinds[0], puzzle, solution)
      case None => rest
      case Some(m) => [m] + rest
  }

  /** Everything `collect_matches` returns. */
  function Matches<P, T>(d: Driver<P, T>, puzzle: P, solution: Option<T>): seq<LayerMatch<P, T>>
  {
    MatchesOf(d, Catalog, puzzle, solution)
  }

  /** The matches of a list of templates are exactly the results of the
      templates that match, each once and in the list's order. */
  lemma {:induction false} MatchesOfFacts<P, T>(d: Driver<P, T>, kinds: seq<LayerKind>, puzzle: P,
                                               solution: Option<T>)
    ensures |MatchesOf(d, kinds, puzzle, solution)| <= |kinds|
    ensures forall m :: m in MatchesOf(d, kinds, puzzle, solution) ==>
              m.kind in kinds && TryLayer(d, m.kind, puzzle, solution) == Some(m)
    ensures forall k :: k in kinds && d.parsePuzzle(k, puzzle).Some? ==>
              TryLayer(d, k, puzzle, solution).value in MatchesOf(d, kinds, puzzle, solution)
  {
    if kinds != [] {
      MatchesOfFacts(d, kinds[1..], puzzle, solution);
      forall k | k in kinds && d.parsePuzzle(k, puzzle).Some?
        ensures TryLayer(d, k, puzzle, solution).value in MatchesOf(d, kinds, puzzle, solution)
      {
        if k != kinds[0] {
          assert k in kinds[1..];
        }
      }
    }
  }

  /** Every match found among the templates after the first has a later rank. */
  lemma MatchesAfterFirst<P, T>(d: Driver<P, T>, kinds: seq<LayerKind>, puzzle: P, solution: Option<T>)
    requires kinds != []
    requires forall i, j :: 0 <= i < j < |kinds| ==> Rank(kinds[i]) < Rank(kinds[j])
    ensures forall m :: m in MatchesOf(d, kinds[1..], puzzle, solution) ==> Rank(kinds[0]) < Rank(m.kind)
  {
    MatchesOfFacts(d, kinds[1..], puzzle, solution);
    forall m | m in MatchesOf(d, kinds[1..], puzzle, solution) ensures Rank(kinds[0]) < Rank(m.kind) {
      var k :| 0 <= k < |kinds[1..]| && kinds[1..][k] == m.kind;
      assert kinds[k + 1] == m.kind;
    }
  }

  /** A match ranked below every match of a rank-ordered list keeps it rank-ordered. */
  lemma RankedCons<P, T>(m: LayerMatch<P, T>, rest: seq<LayerMatch<P, T>>)
    requires forall i, j :: 0 <= i < j < |rest| ==> Rank(rest[i].kind) < Rank(rest[j].kind)
    requires forall x :: x in rest ==> Rank(m.kind) < Rank(x.kind)
    ensures forall i, j :: 0 <= i < j < |[m] + rest| ==> Rank(([m] + rest)[i].kind) < Rank(([m] + rest)[j].kind)
  {
    var all := [m] + rest;
    forall i, j | 0 <= i < j < |all| ensures Rank(all[i].kind) < Rank(all[j].kind) {
      assert all[j] == rest[j - 1];
      assert rest[j - 1] in rest;
      if i > 0 {
        assert all[i] == rest[i - 1];
      }
    }
  }

  /** The kinds of the matches follow the order of a catalog with no repeats:
      a match for an earlier template comes first. */
  lemma {:induction false} MatchesOfOrdered<P, T>(d: Driver<P, T>, kinds: seq<LayerKind>, puzzle: P,
                                                 solution: Option<T>)
    requires forall i, j :: 0 <= i < j < |kinds| ==> Rank(kinds[i]) < Rank(kinds[j])
    ensures forall i, j :: 0 <= i < j < |MatchesOf(d, kinds, puzzle, solution)| ==>
              Rank(MatchesOf(d, kinds, puzzle, solution)[i].kind) < Rank(MatchesOf(d, kinds, puzzle, solution)[j].kind)
  {
    if kinds != [] {
      var rest := MatchesOf(d, kinds[1..], puzzle, solution);
      MatchesOfOrdered(d, kinds[1..], puzzle, solution);
      var first := TryLayer(d, kinds[0], puzzle, solution);
      if first.Some? {
        MatchesAfterFirst(d, kinds, puzzle, solution);
        RankedCons(first.value, rest);
        assert MatchesOf(d, kinds, puzzle, solution) == [first.value] + rest;
      }
    }
  }

  /** `collect_matches`: at most one match per template, a match for exactly
      the templates whose puzzle parse succeeds, and in catalog order. */
  lemma MatchesFacts<P, T>(d: Driver<P, T>, puzzle: P, solution: Option<T>)
    ensures |Matches(d, puzzle, solution)| <= 17
    ensures forall m :: m in Matches(d, puzzle, solution) ==> TryLayer(d, m.kind, puzzle, solution) == Some(m)
    ensures forall k :: d.parsePuzzle(k, puzzle).Some? <==> exists m :: m in Matches(d, puzzle, solution) && m.kind == k
    ensures forall i, j :: 0 <= i < j < |Matches(d, puzzle, solution)| ==>
              Rank(Matches(d, puzzle, solution)[i].kind) < Rank(Matches(d, puzzle, solution)[j].kind)
  {
    CatalogIsAnOrdering();
    MatchesOfFacts(d, Catalog, puzzle, solution);
    MatchesOfOrdered(d, Catalog, puzzle, solution);
    forall k | d.parsePuzzle(k, puzzle).Some?
      ensures exists m :: m in Matches(d, puzzle, solution) && m.kind == k
    {
      var m := TryLayer(d, k, puzzle, solution).value;
      assert m in Matches(d, puzzle, solution) && m.kind == k;
    }
  }

  lemma MatchesOfStep<P, T>(d: Driver<P, T>, kinds: seq<LayerKind>, puzzle: P, solution: Option<T>)
    requires kinds != []
    ensures MatchesOf(d, kinds, puzzle, solution)
         == (match TryLayer(d, kinds[0], puzzle, solution) case None => [] case Some(m) => [m])
            + MatchesOf(d, kinds[1..], puzzle, solution)
  {
  }

  /** One iteration of `TryInOrder`: pushing the result of template `i`
      keeps the matches found so far a prefix of `MatchesOf`. */
  lemma PushStep<P, T>(d: Driver<P, T>, kinds: seq<LayerKind>, i: nat, matches: seq<LayerMatch<P, T>>,
                       m: Option<LayerMatch<P, T>>, puzzle: P, solution: Option<T>)
    requires i < |kinds| && m == TryLayer(d, kinds[i], puzzle, solution)
    requires matches + MatchesOf(d, kinds[i..], puzzle, solution) == MatchesOf(d, kinds, puzzle, solution)
    ensures (if m.Some? then matches + [m.value] else matches) + MatchesOf(d, kinds[i + 1..], puzzle, solution)
         == MatchesOf(d, kinds, puzzle, solution)
  {
    MatchesOfStep(d, kinds[i..], puzzle, solution);
    assert kinds[i..][1..] == kinds[i + 1..];
    if m.Some? {
      assert (matches + [m.value]) + MatchesOf(d, kinds[i + 1..], puzzle, solution)
          == matches + ([m.value] + MatchesOf(d, kinds[i + 1..], puzzle, solution));
    }
  }

  /** `collect_matches`, as the source writes it: try each template in turn
      and push every match. */
  method CollectMatches<P, T>(d: Driver<P, T>, puzzle: P, solution: Option<T>)
    returns (matches: seq<LayerMatch<P, T>>)
    ensures matches == Matches(d, puzzle, solution)
  {
    matches := TryInOrder(d, Catalog, puzzle, solution);
  }

  /** The body of `collect_matches` over any list of templates. */
  method TryInOrder<P, T>(d: Driver<P, T>, kinds: seq<LayerKind>, puzzle: P, solution: Option<T>)
    returns (matches: seq<LayerMatch<P, T>>)
    ensures matches == MatchesOf(d, kinds, puzzle, solution)
  {
    matches := [];
    var i := 0;
    while i < |kinds|
      invariant 0 <= i <= |kinds|
      invariant matches + MatchesOf(d, kinds[i..], puzzle, solution) == MatchesOf(d, kinds, puzzle, solution)
    {
      var m := TryLayer(d, kinds[i], puzzle, solution);
      PushStep(d, kinds, i, matches, m, puzzle, solution);
      if m.Some? {
        matches := matches + [m.value];
      }
      i := i + 1;
    }
  }
}
