/** The static feature extractor of crates/chia-inspect-core/src/inspect.rs:
    one depth-first walk over a program tree that records the operator names
    used in operator position, candidate environment paths, and three
    buckets of constants. The walk threads two flags, "inside quoted data"
    and "in operator position", and inserts into five sorted sets. */
module Features {
  import opened Wrappers
  import opened Hex
  import opened Ordering
  import opened Clvm

  const SmallIntLimit: nat := 1_000_000
  const U32Max: nat := 0xFFFF_FFFF
  /** 2^64: every `u64` is below it. */
  const U64Bound: nat := 0x1_0000_0000_0000_0000

  function Pow256(n: nat): (p: nat)
    ensures p >= 1
  {
    if n == 0 then 1 else 256 * Pow256(n - 1)
  }

  /** The unsigned big-endian value of a byte string. */
  function BigEndian(s: seq<byte>): nat
  {
    if s == [] then 0 else BigEndian(s[..|s| - 1]) * 256 + s[|s| - 1]
  }

  /** What `atom_to_u64` returns: 0 for the empty atom; nothing when the
      sign bit of the first byte is set (a negative CLVM integer) or the atom
      is longer than eight bytes; the big-endian value otherwise. */
  function AtomValue(atom: seq<byte>): Option<nat>
  {
    if atom == [] then Some(0)
    else if atom[0] >= 0x80 then None
    else if |atom| > 8 then None
    else Some(BigEndian(atom))
  }

  lemma {:induction false} BigEndianBound(s: seq<byte>)
    ensures BigEndian(s) < Pow256(|s|)
    ensures s != [] && s[0] < 0x80 ==> BigEndian(s) < 128 * Pow256(|s| - 1)
  {
    if s != [] {
      var init := s[..|s| - 1];
      BigEndianBound(init);
      if |s| > 1 {
        assert init[0] == s[0];
      }
    }
  }

  lemma {:induction false} Pow256Monotone(m: nat, n: nat)
    requires m <= n
    ensures Pow256(m) <= Pow256(n)
  {
    if m < n {
      Pow256Monotone(m, n - 1);
    }
  }

  /** The facts the unit tests of `atom_to_u64` check, and the bound that
      makes its result fit a `u64` with the sign bit clear. */
  lemma AtomValueFacts(atom: seq<byte>)
    ensures AtomValue([]) == Some(0)
    ensures AtomValue([0x7f]) == Some(127)
    ensures AtomValue([0x00, 0x80]) == Some(128)
    ensures AtomValue([0xff]) == None
    ensures atom != [] && atom[0] >= 0x80 ==> AtomValue(atom) == None
    ensures |atom| > 8 ==> AtomValue(atom) == None
    ensures AtomValue(atom).Some? ==> AtomValue(atom).value < U64Bound / 2
  {
    assert [0x00, 0x80][..1] == [0x00];
    assert [0x00][..0] == [];
    if atom != [] && atom[0] < 0x80 && |atom| <= 8 {
      BigEndianBound(atom);
      Pow256Monotone(|atom| - 1, 7);
      assert Pow256(7) == 0x100_0000_0000_0000;
    }
  }

  /** `atom_to_u64`. The shift-and-or of the source is written out on 64-bit
      words; the loop invariant shows it never wraps. */
  method AtomToU64(atom: seq<byte>) returns (r: Option<nat>)
    ensures r == AtomValue(atom)
    ensures r.Some? ==> r.value < U64Bound
  {
    if |atom| == 0 {
      return Some(0);
    }
    if atom[0] >= 0x80 {
      return None;
    }
    if |atom| > 8 {
      return None;
    }
    var v: nat := 0;
    for i := 0 to |atom|
      invariant v == BigEndian(atom[..i])
      invariant v < Pow256(i)
    {
      Pow256Monotone(i, 7);
      assert Pow256(7) == 0x100_0000_0000_0000;
      // (v << 8) | b on a u64: the low byte of the shifted word is zero
      v := (v * 256) % U64Bound + atom[i];
      assert atom[..i + 1][..i] == atom[..i];
    }
    assert atom[..|atom|] == atom;
    return Some(v);
  }

  /** The five feature sets, as the `BTreeSet`s hold them. */
  datatype FeatureSets = FeatureSets(
    operators: set<string>,
    envPaths: set<nat>,
    bytes32: set<string>,
    g1Pubkeys: set<string>,
    smallInts: set<nat>)

  const NoFeatures := FeatureSets({}, {}, {}, {}, {})

  function Union(a: FeatureSets, b: FeatureSets): FeatureSets
  {
    FeatureSets(a.operators + b.operators, a.envPaths + b.envPaths, a.bytes32 + b.bytes32,
                a.g1Pubkeys + b.g1Pubkeys, a.smallInts + b.smallInts)
  }

  lemma UnionAssociative(a: FeatureSets, b: FeatureSets, c: FeatureSets)
    ensures Union(Union(a, b), c) == Union(a, Union(b, c))
  {
  }

  /** What one atom contributes. */
  function AtomFeatures(b: seq<byte>, inQuoted: bool, operatorPosition: bool): FeatureSets
  {
    var v := AtomValue(b);
    FeatureSets(
      {},
      if v.Some? && !inQuoted && !operatorPosition && 0 < v.value <= U32Max then {v.value} else {},
      if |b| == 32 then {EncodeHexPrefixed(b)} else {},
      if |b| == 48 then {EncodeHexPrefixed(b)} else {},
      if v.Some? && v.value <= SmallIntLimit then {v.value} else {})
  }

  /** Does this pair open a quoted form: not already quoted, and its left
      child is the quote atom? */
  predicate IsQuoteForm(left: Node, inQuoted: bool)
  {
    !inQuoted && left.Atom? && left.bytes == QuoteAtom
  }

  /** What a pair itself records: the operator name of its left child, when
      that child is an atom outside quoted data whose bytes are a keyword. */
  function PairOperator(left: Node, inQuoted: bool, keywords: map<seq<byte>, string>): set<string>
  {
    if !inQuoted && left.Atom? && left.bytes in keywords then {keywords[left.bytes]} else {}
  }

  /** Everything `visit_clvm` adds to the five sets when it walks `n` with the
      given flags, `keywords` being the operator table (bytes to name). */
  function Features(n: Node, inQuoted: bool, operatorPosition: bool, keywords: map<seq<byte>, string>)
    : (f: FeatureSets)
    ensures f.operators <= keywords.Values
    ensures forall p :: p in f.envPaths ==> 1 <= p <= U32Max
    ensures forall k :: k in f.smallInts ==> k <= SmallIntLimit
    ensures inQuoted ==> f.operators == {} && f.envPaths == {}
  {
    match n
    case Atom(b) => AtomFeatures(b, inQuoted, operatorPosition)
    case Pair(l, r) =>
      Union(Union(FeatureSets(PairOperator(l, inQuoted, keywords), {}, {}, {}, {}),
                  Features(l, inQuoted, true, keywords)),
            Features(r, inQuoted || IsQuoteForm(l, inQuoted), false, keywords))
  }

  /** The five `&mut BTreeSet` accumulators `visit_clvm` inserts into. */
  class FeatureAccumulator {
    var operators: set<string>
    var envPaths: set<nat>
    var bytes32: set<string>
    var g1Pubkeys: set<string>
    var smallInts: set<nat>

    function Contents(): FeatureSets
      reads this
    {
      FeatureSets(operators, envPaths, bytes32, g1Pubkeys, smallInts)
    }

    constructor ()
      ensures Contents() == NoFeatures
    {
      operators, envPaths, bytes32, g1Pubkeys, smallInts := {}, {}, {}, {}, {};
    }

    /** The atom branch of `visit_clvm`. */
    method AddAtom(b: seq<byte>, inQuoted: bool, operatorPosition: bool)
      modifies this
      ensures Contents() == Union(old(Contents()), AtomFeatures(b, inQuoted, operatorPosition))
    {
      if |b| == 32 {
        bytes32 := bytes32 + {EncodeHexPrefixed(b)};
      } else if |b| == 48 {
        g1Pubkeys := g1Pubkeys + {EncodeHexPrefixed(b)};
      }
      var value := AtomToU64(b);
      if value.Some? {
        if value.value <= SmallIntLimit {
          smallInts := smallInts + {value.value};
        }
        if !inQuoted && !operatorPosition && value.value > 0 && value.value <= U32Max {
          envPaths := envPaths + {value.value};
        }
      }
    }
  }

  /** `visit_clvm`. */
  method Visit(n: Node, inQuoted: bool, operatorPosition: bool, keywords: map<seq<byte>, string>,
               acc: FeatureAccumulator)
    modifies acc
    ensures acc.Contents() == Union(old(acc.Contents()), Features(n, inQuoted, operatorPosition, keywords))
    decreases n
  {
    match n {
      case Pair(left, right) =>
        ghost var before := acc.Contents();
        var isQuote := !inQuoted && left.Atom? && left.bytes == QuoteAtom;
        if !inQuoted && left.Atom? {
          if left.bytes in keywords {
            acc.operators := acc.operators + {keywords[left.bytes]};
          }
        }
        ghost var own := FeatureSets(PairOperator(left, inQuoted, keywords), {}, {}, {}, {});
        assert acc.Contents() == Union(before, own);
        Visit(left, inQuoted, true, keywords, acc);
        ghost var leftPart := Features(left, inQuoted, true, keywords);
        assert acc.Contents() == Union(Union(before, own), leftPart);
        Visit(right, inQuoted || isQuote, false, keywords, acc);
        ghost var rightPart := Features(right, inQuoted || isQuote, false, keywords);
        assert acc.Contents() == Union(Union(Union(before, own), leftPart), rightPart);
        UnionAssociative(before, Union(own, leftPart), rightPart);
        UnionAssociative(before, own, leftPart);
      case Atom(b) =>
        acc.AddAtom(b, inQuoted, operatorPosition);
    }
  }

  datatype ConstantBuckets = ConstantBuckets(bytes32: seq<string>, g1Pubkeys: seq<string>, smallInts: seq<nat>)

  /** The `StaticFeatures` record: each set turned into its ascending list. */
  datatype StaticFeatures = StaticFeatures(
    operatorsUsed: seq<string>,
    envPathsUsed: seq<nat>,
    constants: ConstantBuckets)

  predicate NatLess(a: nat, b: nat) { a < b }

  /** `list` holds the elements of `s`, ascending, each once. */
  ghost predicate ListsSet<T(!new)>(list: seq<T>, s: set<T>, lt: (T, T) -> bool)
  {
    StrictlySorted(list, lt) && forall x :: x in list <==> x in s
  }

  /** `f` is the sorted presentation of the sets `sets`. */
  ghost predicate Presents(f: StaticFeatures, sets: FeatureSets)
  {
    && ListsSet(f.operatorsUsed, sets.operators, StrLess)
    && ListsSet(f.envPathsUsed, sets.envPaths, NatLess)
    && ListsSet(f.constants.bytes32, sets.bytes32, StrLess)
    && ListsSet(f.constants.g1Pubkeys, sets.g1Pubkeys, StrLess)
    && ListsSet(f.constants.smallInts, sets.smallInts, NatLess)
  }

  /** `extract_static_features`: walk from the root, unquoted and not in
      operator position, then list every set in ascending order. */
  method ExtractStaticFeatures(root: Node, keywords: map<seq<byte>, string>) returns (f: StaticFeatures)
    ensures Presents(f, Features(root, false, false, keywords))
  {
    var acc := new FeatureAccumulator();
    Visit(root, false, false, keywords, acc);
    StrLessIsStrictTotalOrder();
    assert StrictTotalOrder(NatLess);
    var operators := SortedElements(acc.operators, StrLess);
    var envPaths := SortedElements(acc.envPaths, NatLess);
    var bytes32 := SortedElements(acc.bytes32, StrLess);
    var g1Pubkeys := SortedElements(acc.g1Pubkeys, StrLess);
    var smallInts := SortedElements(acc.smallInts, NatLess);
    f := StaticFeatures(operators, envPaths, ConstantBuckets(bytes32, g1Pubkeys, smallInts));
  }

  /** The hex spellings of the atoms of length `len` among `atoms`. */
  ghost function LengthBucket(atoms: set<seq<byte>>, len: nat): set<string>
  {
    set a | a in atoms && |a| == len :: EncodeHexPrefixed(a)
  }

  /** The values of the atoms among `atoms` that read as integers up to the limit. */
  ghost function SmallIntBucket(atoms: set<seq<byte>>): set<nat>
  {
    set a | a in atoms && AtomValue(a).Some? && AtomValue(a).value <= SmallIntLimit :: AtomValue(a).value
  }

  lemma BucketsOfUnion(x: set<seq<byte>>, y: set<seq<byte>>)
    ensures LengthBucket(x + y, 32) == LengthBucket(x, 32) + LengthBucket(y, 32)
    ensures LengthBucket(x + y, 48) == LengthBucket(x, 48) + LengthBucket(y, 48)
    ensures SmallIntBucket(x + y) == SmallIntBucket(x) + SmallIntBucket(y)
  {
  }

  lemma BucketsOfAtom(b: seq<byte>, inQuoted: bool, operatorPosition: bool)
    ensures AtomFeatures(b, inQuoted, operatorPosition).bytes32 == LengthBucket({b}, 32)
    ensures AtomFeatures(b, inQuoted, operatorPosition).g1Pubkeys == LengthBucket({b}, 48)
    ensures AtomFeatures(b, inQuoted, operatorPosition).smallInts == SmallIntBucket({b})
  {
  }

  /** The constant buckets do not depend on quoting or position: they collect
      every 32-byte atom, every 48-byte atom and every small integer of the
      tree. */
  lemma {:induction false} BucketsCollectAllAtoms(n: Node, inQuoted: bool, operatorPosition: bool,
                                                  keywords: map<seq<byte>, string>)
    ensures Features(n, inQuoted, operatorPosition, keywords).bytes32 == LengthBucket(Atoms(n), 32)
    ensures Features(n, inQuoted, operatorPosition, keywords).g1Pubkeys == LengthBucket(Atoms(n), 48)
    ensures Features(n, inQuoted, operatorPosition, keywords).smallInts == SmallIntBucket(Atoms(n))
  {
    match n
    case Atom(b) =>
      BucketsOfAtom(b, inQuoted, operatorPosition);
    case Pair(l, r) =>
      var q := inQuoted || IsQuoteForm(l, inQuoted);
      var fl := Features(l, inQuoted, true, keywords);
      var fr := Features(r, q, false, keywords);
      var f := Features(n, inQuoted, operatorPosition, keywords);
      assert f.bytes32 == fl.bytes32 + fr.bytes32;
      assert f.g1Pubkeys == fl.g1Pubkeys + fr.g1Pubkeys;
      assert f.smallInts == fl.smallInts + fr.smallInts;
      assert Atoms(n) == Atoms(l) + Atoms(r);
      BucketsCollectAllAtoms(l, inQuoted, true, keywords);
      BucketsCollectAllAtoms(r, q, false, keywords);
      BucketsOfUnion(Atoms(l), Atoms(r));
  }

  /** An atom is an environment path exactly when it is neither quoted nor in
      operator position and its value lies in 1..=u32::MAX. */
  lemma AtomEnvPath(b: seq<byte>, inQuoted: bool, operatorPosition: bool,
                    keywords: map<seq<byte>, string>, p: nat)
    ensures p in Features(Atom(b), inQuoted, operatorPosition, keywords).envPaths
        <==> !inQuoted && !operatorPosition && AtomValue(b) == Some(p) && 1 <= p <= U32Max
  {
  }

  /** A quoted form records the quote operator and nothing else: its argument
      subtree adds no operator and no environment path, however deep. With
      the standard table (0x01 named "q") the tree `(1 . 1)` records "q". */
  lemma QuoteFormRecordsOnlyQuote(arg: Node, operatorPosition: bool, keywords: map<seq<byte>, string>)
    requires QuoteAtom in keywords && keywords[QuoteAtom] == "q"
    ensures Features(Pair(Atom(QuoteAtom), arg), false, operatorPosition, keywords).operators == {"q"}
    ensures Features(Pair(Atom(QuoteAtom), arg), false, operatorPosition, keywords).envPaths == {}
    ensures "q" in Features(Pair(Atom(QuoteAtom), Atom(QuoteAtom)), false, false, keywords).operators
  {
    assert AtomValue(QuoteAtom) == Some(1) by {
      assert QuoteAtom[..0] == [];
    }
  }

  /** Operator position is "left child of a pair": in the dotted pair
      `(A . B)` the keyword name of `A` is recorded and `A` is never an
      environment path; `B`, a right child, never adds an operator name, even
      when its bytes are a keyword, but is an environment path when its value
      is in range. In a proper list `(A B)`, which is `(A . (B . ()))`, `B` is
      a left child again: see `ListArgumentMisread`. */
  lemma OperatorPositionCounts(a: seq<byte>, b: seq<byte>, keywords: map<seq<byte>, string>)
    requires a != QuoteAtom
    ensures Features(Pair(Atom(a), Atom(b)), false, false, keywords).operators
         == if a in keywords then {keywords[a]} else {}
    ensures Features(Pair(Atom(a), Atom(b)), false, false, keywords).envPaths
         == if AtomValue(b).Some? && 1 <= AtomValue(b).value <= U32Max then {AtomValue(b).value} else {}
  {
  }

  /** The atoms that occur as the left child of some pair: the positions
      the walk treats as operator position. */
  function LeftAtoms(n: Node): set<seq<byte>>
  {
    match n
    case Atom(_) => {}
    case Pair(l, r) => (if l.Atom? then {l.bytes} else {}) + LeftAtoms(l) + LeftAtoms(r)
  }

  /** The atoms that occur as the right child of some pair. */
  function RightAtoms(n: Node): set<seq<byte>>
  {
    match n
    case Atom(_) => {}
    case Pair(l, r) => (if r.Atom? then {r.bytes} else {}) + RightAtoms(l) + RightAtoms(r)
  }

  /** The operator names of those of `atoms` that are keywords. */
  function KeywordNames(atoms: set<seq<byte>>, keywords: map<seq<byte>, string>): set<string>
  {
    set a | a in atoms && a in keywords :: keywords[a]
  }

  /** The values of those of `atoms` that read as an integer in 1..=u32::MAX. */
  function EnvPathValues(atoms: set<seq<byte>>): set<nat>
  {
    set a | a in atoms && AtomValue(a).Some? && 1 <= AtomValue(a).value <= U32Max :: AtomValue(a).value
  }

  lemma KeywordNamesUnion(x: set<seq<byte>>, y: set<seq<byte>>, keywords: map<seq<byte>, string>)
    ensures KeywordNames(x + y, keywords) == KeywordNames(x, keywords) + KeywordNames(y, keywords)
  {
  }

  lemma EnvPathValuesUnion(x: set<seq<byte>>, y: set<seq<byte>>)
    ensures EnvPathValues(x + y) == EnvPathValues(x) + EnvPathValues(y)
  {
  }

  /** In a tree without quoted forms, the operator names recorded are exactly
      the keyword names of the atoms that are left children of a pair. */
  lemma {:induction false} OperatorsAreLeftAtoms(n: Node, operatorPosition: bool, keywords: map<seq<byte>, string>)
    requires QuoteAtom !in LeftAtoms(n)
    ensures Features(n, false, operatorPosition, keywords).operators == KeywordNames(LeftAtoms(n), keywords)
  {
    match n
    case Atom(_) =>
    case Pair(l, r) =>
      OperatorsAreLeftAtoms(l, true, keywords);
      OperatorsAreLeftAtoms(r, false, keywords);
      assert !IsQuoteForm(l, false);
      var own := if l.Atom? then {l.bytes} else {};
      assert PairOperator(l, false, keywords) == KeywordNames(own, keywords);
      KeywordNamesUnion(own, LeftAtoms(l), keywords);
      KeywordNamesUnion(own + LeftAtoms(l), LeftAtoms(r), keywords);
  }

  /** In a tree without quoted forms, the environment paths recorded are
      exactly the in-range values of the atoms that are right children of a
      pair, and of the root when it is an atom outside operator position. */
  lemma {:induction false} EnvPathsAreRightAtoms(n: Node, operatorPosition: bool, keywords: map<seq<byte>, string>)
    requires QuoteAtom !in LeftAtoms(n)
    ensures Features(n, false, operatorPosition, keywords).envPaths == EnvPathValues(PathAtoms(n, operatorPosition))
  {
    match n
    case Atom(b) =>
      AtomEnvPaths(b, operatorPosition, keywords);
    case Pair(l, r) =>
      EnvPathsAreRightAtoms(l, true, keywords);
      EnvPathsAreRightAtoms(r, false, keywords);
      assert !IsQuoteForm(l, false);
      EnvPathsOfPair(l, r, operatorPosition, keywords);
  }

  /** The atoms a walk of `n` outside a quote reads as environment paths:
      every right child, and `n` itself when it is an atom outside operator
      position. */
  function PathAtoms(n: Node, operatorPosition: bool): (r: set<seq<byte>>)
    ensures RightAtoms(n) <= r
    ensures n.Pair? ==> r == RightAtoms(n)
  {
    RightAtoms(n) + (if n.Atom? && !operatorPosition then {n.bytes} else {})
  }

  /** What the walk records at a pair, split into the pair's own operator
      name and the walks of its two children. */
  lemma PairFeatures(l: Node, r: Node, inQuoted: bool, operatorPosition: bool, keywords: map<seq<byte>, string>)
    ensures Features(Pair(l, r), inQuoted, operatorPosition, keywords).operators
         == PairOperator(l, inQuoted, keywords) + Features(l, inQuoted, true, keywords).operators
            + Features(r, inQuoted || IsQuoteForm(l, inQuoted), false, keywords).operators
    ensures Features(Pair(l, r), inQuoted, operatorPosition, keywords).envPaths
         == Features(l, inQuoted, true, keywords).envPaths
            + Features(r, inQuoted || IsQuoteForm(l, inQuoted), false, keywords).envPaths
  {
  }

  /** The base case of `EnvPathsAreRightAtoms`. */
  lemma AtomEnvPaths(b: seq<byte>, operatorPosition: bool, keywords: map<seq<byte>, string>)
    ensures Features(Atom(b), false, operatorPosition, keywords).envPaths == EnvPathValues(PathAtoms(Atom(b), operatorPosition))
  {
    assert PathAtoms(Atom(b), operatorPosition) == if operatorPosition then {} else {b};
  }

  /** The step of `EnvPathsAreRightAtoms` at a pair. */
  lemma EnvPathsOfPair(l: Node, r: Node, operatorPosition: bool, keywords: map<seq<byte>, string>)
    requires !IsQuoteForm(l, false)
    requires Features(l, false, true, keywords).envPaths == EnvPathValues(PathAtoms(l, true))
    requires Features(r, false, false, keywords).envPaths == EnvPathValues(PathAtoms(r, false))
    ensures Features(Pair(l, r), false, operatorPosition, keywords).envPaths
         == EnvPathValues(PathAtoms(Pair(l, r), operatorPosition))
  {
    PairFeatures(l, r, false, operatorPosition, keywords);
    assert PathAtoms(l, true) == RightAtoms(l);
    assert PathAtoms(Pair(l, r), operatorPosition) == PathAtoms(l, true) + PathAtoms(r, false);
    EnvPathValuesUnion(PathAtoms(l, true), PathAtoms(r, false));
  }

  /** For every tree, quoted parts included, the operators recorded are
      keyword names of left-child atoms: a quote only removes operators. */
  lemma {:induction false} OperatorsWithinLeftAtoms(n: Node, inQuoted: bool, operatorPosition: bool,
                                                    keywords: map<seq<byte>, string>)
    ensures Features(n, inQuoted, operatorPosition, keywords).operators <= KeywordNames(LeftAtoms(n), keywords)
  {
    match n
    case Atom(_) =>
    case Pair(l, r) =>
      OperatorsWithinLeftAtoms(l, inQuoted, true, keywords);
      OperatorsWithinLeftAtoms(r, inQuoted || IsQuoteForm(l, inQuoted), false, keywords);
      OperatorsWithinPair(l, r, inQuoted, operatorPosition, keywords);
  }

  /** The step of `OperatorsWithinLeftAtoms` at a pair. */
  lemma OperatorsWithinPair(l: Node, r: Node, inQuoted: bool, operatorPosition: bool,
                            keywords: map<seq<byte>, string>)
    requires Features(l, inQuoted, true, keywords).operators <= KeywordNames(LeftAtoms(l), keywords)
    requires Features(r, inQuoted || IsQuoteForm(l, inQuoted), false, keywords).operators
          <= KeywordNames(LeftAtoms(r), keywords)
    ensures Features(Pair(l, r), inQuoted, operatorPosition, keywords).operators
         <= KeywordNames(LeftAtoms(Pair(l, r)), keywords)
  {
    PairFeatures(l, r, inQuoted, operatorPosition, keywords);
    var own := if l.Atom? then {l.bytes} else {};
    assert PairOperator(l, inQuoted, keywords) <= KeywordNames(own, keywords);
    KeywordNamesUnion(own, LeftAtoms(l), keywords);
    KeywordNamesUnion(own + LeftAtoms(l), LeftAtoms(r), keywords);
  }

  /** For every tree, quoted parts included, the environment paths recorded
      are values of the atoms `PathAtoms` collects: a quote only removes paths. */
  lemma {:induction false} EnvPathsWithinPathAtoms(n: Node, inQuoted: bool, operatorPosition: bool,
                                                   keywords: map<seq<byte>, string>)
    ensures Features(n, inQuoted, operatorPosition, keywords).envPaths <= EnvPathValues(PathAtoms(n, operatorPosition))
  {
    match n
    case Atom(b) =>
      assert PathAtoms(n, operatorPosition) == if operatorPosition then {} else {b};
    case Pair(l, r) =>
      EnvPathsWithinPathAtoms(l, inQuoted, true, keywords);
      EnvPathsWithinPathAtoms(r, inQuoted || IsQuoteForm(l, inQuoted), false, keywords);
      EnvPathsWithinPair(l, r, inQuoted, operatorPosition, keywords);
  }

  /** The step of `EnvPathsWithinPathAtoms` at a pair. */
  lemma EnvPathsWithinPair(l: Node, r: Node, inQuoted: bool, operatorPosition: bool,
                           keywords: map<seq<byte>, string>)
    requires Features(l, inQuoted, true, keywords).envPaths <= EnvPathValues(PathAtoms(l, true))
    requires Features(r, inQuoted || IsQuoteForm(l, inQuoted), false, keywords).envPaths
          <= EnvPathValues(PathAtoms(r, false))
    ensures Features(Pair(l, r), inQuoted, operatorPosition, keywords).envPaths
         <= EnvPathValues(PathAtoms(Pair(l, r), operatorPosition))
  {
    PairFeatures(l, r, inQuoted, operatorPosition, keywords);
    assert PathAtoms(Pair(l, r), operatorPosition) == PathAtoms(l, true) + PathAtoms(r, false);
    EnvPathValuesUnion(PathAtoms(l, true), PathAtoms(r, false));
  }

  /** The list `(a1 a2 ...)` of atoms, ending in nil. */
  function AtomList(items: seq<seq<byte>>): Node
  {
    if items == [] then Atom([]) else Pair(Atom(items[0]), AtomList(items[1..]))
  }

  /** The walk as written, on the call `(A B)`, which is `(A . (B . ()))`: the
      argument `B` is the left child of the inner pair, so its keyword name is
      recorded as an operator and it never counts as an environment path. */
  lemma ListArgumentMisread(a: seq<byte>, b: seq<byte>, keywords: map<seq<byte>, string>)
    requires a != QuoteAtom
    ensures Features(Pair(Atom(a), Pair(Atom(b), Atom([]))), false, false, keywords).operators
         == KeywordNames({a, b}, keywords)
    ensures Features(Pair(Atom(a), Pair(Atom(b), Atom([]))), false, false, keywords).envPaths == {}
    ensures AtomValue(b).Some? && 1 <= AtomValue(b).value <= U32Max ==>
              AtomValue(b).value in CodeEnvPaths(Pair(Atom(a), Pair(Atom(b), Atom([]))))
  {
    var inner := Pair(Atom(b), Atom([]));
    PairFeatures(Atom(a), inner, false, false, keywords);
    PairFeatures(Atom(b), Atom([]), false, false, keywords);
    PairFeatures(Atom(b), Atom([]), true, false, keywords);
    assert AtomValue([]) == Some(0);
    assert Features(inner, false, false, keywords).envPaths == {};
    assert KeywordNames({a}, keywords) == PairOperator(Atom(a), false, keywords);
    assert KeywordNames({b}, keywords) == PairOperator(Atom(b), false, keywords);
    assert Features(inner, false, false, keywords).operators == KeywordNames({b}, keywords);
    KeywordNamesUnion({a}, {b}, keywords);
    assert ArgumentEnvPaths(Atom([])) == {};
    assert ArgumentEnvPaths(inner) == CodeEnvPaths(Atom(b)) == EnvPathValues({b});
    assert CodeEnvPaths(Pair(Atom(a), inner)) == ArgumentEnvPaths(inner);
  }

  /** The operator names of `n` read as CLVM code: a call `(op . args)`
      names `op` when it is a keyword atom; its arguments are code again,
      except after the quote operator, whose argument is data. */
  function CodeOperators(n: Node, keywords: map<seq<byte>, string>): set<string>
  {
    match n
    case Atom(_) => {}
    case Pair(head, args) =>
      if head.Atom? then
        (if head.bytes in keywords then {keywords[head.bytes]} else {})
        + (if head.bytes == QuoteAtom then {} else ArgumentOperators(args, keywords))
      else CodeOperators(head, keywords) + ArgumentOperators(args, keywords)
  }

  /** The operator names of the argument list `args`: each element is code. */
  function ArgumentOperators(args: Node, keywords: map<seq<byte>, string>): set<string>
  {
    match args
    case Atom(_) => {}
    case Pair(a, rest) => CodeOperators(a, keywords) + ArgumentOperators(rest, keywords)
  }

  /** The environment paths of `n` read as CLVM code: an atom in code
      position is a path; the argument of the quote operator is data. */
  function CodeEnvPaths(n: Node): set<nat>
  {
    match n
    case Atom(b) => EnvPathValues({b})
    case Pair(head, args) =>
      if head.Atom? then
        (if head.bytes == QuoteAtom then {} else ArgumentEnvPaths(args))
      else CodeEnvPaths(head) + ArgumentEnvPaths(args)
  }

  /** The environment paths of the argument list `args`. */
  function ArgumentEnvPaths(args: Node): set<nat>
  {
    match args
    case Atom(_) => {}
    case Pair(a, rest) => CodeEnvPaths(a) + ArgumentEnvPaths(rest)
  }

  lemma {:induction false} AtomArguments(args: seq<seq<byte>>, keywords: map<seq<byte>, string>)
    ensures ArgumentOperators(AtomList(args), keywords) == {}
    ensures ArgumentEnvPaths(AtomList(args)) == EnvPathValues(set a | a in args)
  {
    if args != [] {
      AtomArguments(args[1..], keywords);
      EnvPathValuesUnion({args[0]}, set a | a in args[1..]);
      assert (set a | a in args) == {args[0]} + (set a | a in args[1..]) by {
        assert args == [args[0]] + args[1..];
      }
    }
  }

  /** Read as code, the call `(op a1 ... an)` of atoms names only `op` as an
      operator, and its arguments are the environment paths. */
  lemma CallArgumentsAreEnvPaths(op: seq<byte>, args: seq<seq<byte>>, keywords: map<seq<byte>, string>)
    requires op != QuoteAtom
    ensures CodeOperators(Pair(Atom(op), AtomList(args)), keywords) == KeywordNames({op}, keywords)
    ensures CodeEnvPaths(Pair(Atom(op), AtomList(args))) == EnvPathValues(set a | a in args)
  {
    AtomArguments(args, keywords);
  }

  lemma {:induction false} StrictlySortedUnique<T(!new)>(a: seq<T>, b: seq<T>, lt: (T, T) -> bool)
    requires StrictTotalOrder(lt)
    requires StrictlySorted(a, lt) && StrictlySorted(b, lt)
    requires forall x :: x in a <==> x in b
    ensures a == b
    decreases |a|
  {
    assert a == [] <==> b == [] by {
      if a != [] { assert a[0] in b; }
      if b != [] { assert b[0] in a; }
    }
    if a != [] {
      HeadIsLeast(a, lt);
      HeadIsLeast(b, lt);
      assert a[0] in b && b[0] in a;
      assert a[0] == b[0];
      forall x ensures x in a[1..] <==> x in b[1..] {
        if x in a[1..] {
          var i :| 0 <= i < |a[1..]| && a[1..][i] == x;
          assert lt(a[0], a[i + 1]);
          assert x in b;
          var j :| 0 <= j < |b| && b[j] == x;
          assert j != 0;
          assert b[1..][j - 1] == x;
        }
        if x in b[1..] {
          var j :| 0 <= j < |b[1..]| && b[1..][j] == x;
          assert lt(b[0], b[j + 1]);
          assert x in a;
          var i :| 0 <= i < |a| && a[i] == x;
          assert i != 0;
          assert a[1..][i - 1] == x;
        }
      }
      StrictlySortedUnique(a[1..], b[1..], lt);
      assert a == [a[0]] + a[1..] && b == [b[0]] + b[1..];
    }
  }

  /** The head of a non-empty strictly sorted list is below every other element. */
  lemma HeadIsLeast<T(!new)>(a: seq<T>, lt: (T, T) -> bool)
    requires a != [] && StrictlySorted(a, lt)
    ensures forall x :: x in a && x != a[0] ==> lt(a[0], x)
  {
    forall x | x in a && x != a[0] ensures lt(a[0], x) {
      var i :| 0 <= i < |a| && a[i] == x;
      assert i != 0;
    }
  }

  /** The listed features are determined by the sets alone: two records that
      present the same sets are equal, so the output depends only on the tree. */
  lemma PresentationIsUnique(f: StaticFeatures, g: StaticFeatures, sets: FeatureSets)
    requires Presents(f, sets) && Presents(g, sets)
    ensures f == g
  {
    StrLessIsStrictTotalOrder();
    assert StrictTotalOrder(NatLess);
    StrictlySortedUnique(f.operatorsUsed, g.operatorsUsed, StrLess);
    StrictlySortedUnique(f.envPathsUsed, g.envPathsUsed, NatLess);
    StrictlySortedUnique(f.constants.bytes32, g.constants.bytes32, StrLess);
    StrictlySortedUnique(f.constants.g1Pubkeys, g.constants.g1Pubkeys, StrLess);
    StrictlySortedUnique(f.constants.smallInts, g.constants.smallInts, NatLess);
  }
}
