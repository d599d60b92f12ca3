# chia-inspect core, modelled in Dafny

This project models the analysis core of the `chia-inspect` spend-bundle
inspector and of the `clvm-workbench` command-line helper. The model covers:

- **Input loading** (`input.rs`). A JSON document is classified as a mempool
  item, a list of block spends or a single coin spend. The hex fields
  `puzzle_reveal` and `solution` of every coin spend are normalised to
  lower-case hex without a prefix. The result is handed to the spend-bundle
  decoders.
- **Hex helpers** (`util.rs`). These cover the `0x`/`0X` prefix, trimming,
  decoding with its odd-length and bad-digit errors, and prefixed lower-case
  encoding.
- **Puzzle-layer recognition** (`recognize.rs`). A puzzle reveal is peeled from
  the outside in against a fixed catalog of seventeen layer templates (CAT,
  singleton, DID, NFT state and ownership, …, standard). The walk takes at
  most 32 rounds. A round with several matches is reported as ambiguous. A
  round with one match records a wrapper and a candidate with a confidence.
  The walk stops at a leaf layer or when the inner puzzle hashes like the
  outer one.
- **Static features of a CLVM program** (`inspect.rs`). These are the operator
  names in operator position, the environment paths, and the 32-byte, 48-byte
  and small-integer constants, each listed in ascending order. Atoms are read
  as `u64` by `atom_to_u64`.
- **The spend summary** (`inspect.rs`):
  - removals capped at the shorter of the two spend lists;
  - additions;
  - AGG_SIG_ME and AGG_SIG_UNSAFE pairs, each list sorted with its comparator;
  - the saturating fee;
  - the net change in mojos per puzzle hash, in hash order;
  - the append-only condition and explanation records of one spend.
- **The workbench's hex classification** (`clvm-workbench/src/main.rs`).

Files, one module each:

| file | module | models |
|---|---|---|
| wrappers.dfy | Wrappers | `Option`, `Result` |
| ordering.dfy | Ordering | `Ord` for `String`, `BTreeSet`/`BTreeMap` iteration order, `Vec::sort_by` |
| hex.dfy | Hex | crates/chia-inspect-core/src/util.rs |
| workbench.dfy | Workbench | crates/clvm-workbench/src/main.rs |
| json.dfy | Json | `serde_json::Value` |
| clvm.dfy | Clvm | CLVM program trees |
| features.dfy | Features | `visit_clvm`, `extract_static_features`, `atom_to_u64` |
| summary.dfy | Summary | `build_success_output` (counts, sorts, fee), `compute_net_delta`, `coin_ref_from_coin`, `add_signature_conditions`, `add_optional_assertion` |
| input.dfy | Input | crates/chia-inspect-core/src/input.rs |
| layers.dfy | Layers | `collect_matches` and the seventeen `try_*_layer` templates |
| recognize.dfy | Recognize | `recognize_puzzle_and_solution`, `candidate_from_match` |

Some code is foreign to the repository or is I/O. This model treats it as
parameters:

- The chia_sdk_driver layer parsers and the CLVM tree hasher form a `Driver`
  record of functions. Puzzle hashes are not assumed injective.
- A coin's SHA-256 id is a function parameter `coinId`.
- serde's `SpendBundle`/`CoinSpend` decoders and the streamable byte decoder
  form a `Decoders` record.
- The workbench's CLVM disassembler is a function parameter.

Two code facts about recognition shape the model. The royalty-transfer
template never reads the solution and reports it as unsupported. A parsed DID
recovery spend passes no inner solution down.

## Model

| member | source | states |
|---|---|---|
| Hex.Strip0x | crates/chia-inspect-core/src/util.rs:3-7 | at most one leading `0x` or `0X` is removed, and nothing else changes |
| Hex.TrimStart | crates/chia-inspect-core/src/util.rs:10 | the result is a suffix of the input that does not start with Unicode white space, and every character removed is white space |
| Hex.TrimEnd | crates/chia-inspect-core/src/util.rs:10 | the result is a prefix of the input that does not end with Unicode white space, and every character removed is white space |
| Hex.HexEncode | crates/chia-inspect-core/src/util.rs:21 | two lower-case hex digits per byte |
| Hex.DecodeHex | crates/chia-inspect-core/src/util.rs:9-18 | decoding succeeds exactly when the stripped, trimmed text is all hex digits of even length, with half as many bytes as digits; the odd-length error is reported exactly when the UTF-8 byte length is odd |
| Hex.EncodeHexPrefixed | crates/chia-inspect-core/src/util.rs:20-22 | `0x` followed by 2·n lower-case hex digits |
| Hex.DecodeEncodePairs | crates/chia-inspect-core/src/util.rs:17-21 | decoding the digits that `hex::encode` wrote gives back the bytes |
| Hex.EncodeDecodePairs | crates/chia-inspect-core/src/util.rs:24-26 | re-encoding decoded digits gives the input lower-cased |
| Hex.NoWhitespaceInHex | crates/chia-inspect-core/src/util.rs:10 | trimming leaves a string of hex digits unchanged |
| Hex.LowerHexHasNoPrefix | crates/chia-inspect-core/src/util.rs:3-7 | stripping leaves lower-case hex unchanged |
| Hex.StripRemovesOnePrefix | crates/chia-inspect-core/src/util.rs:3-7 | one prefix is removed and a doubled prefix keeps its second copy |
| Hex.DecodeBlankIsEmpty | crates/chia-inspect-core/src/util.rs:10-13 | a blank input after stripping decodes to no bytes |
| Hex.DecodeOddLengthFails | crates/chia-inspect-core/src/util.rs:14-16 | an odd UTF-8 byte length gives the odd-length error |
| Hex.DecodeEncodeRoundTrip | crates/chia-inspect-core/src/util.rs:9-22 | `decode_hex(encode_hex_prefixed(b)) == Ok(b)` for all bytes `b` |
| Hex.NormalizeIsLowercasedInput | crates/chia-inspect-core/src/util.rs:24-27 | `NormalizeHexNoPrefix` (`normalize_hex_no_prefix`): a normalised string is the stripped, trimmed input lower-cased: lower-case hex with no prefix |
| Hex.NormalizeIdempotent | crates/chia-inspect-core/src/util.rs:24-27 | `NormalizeHexNoPrefix`: normalising a normalised string changes nothing |
| Workbench.DecodeHexInput | crates/clvm-workbench/src/main.rs:92-105 | the even-length error is reported exactly when the stripped, trimmed text has odd byte length; success yields half as many bytes as digits |
| Workbench.LooksLikeHex | crates/clvm-workbench/src/main.rs:107-117 | true exactly when the text after one prefix is non-empty, of even length and all ASCII hex digits |
| Workbench.NormalizeProgramInput | crates/clvm-workbench/src/main.rs:82-90 | text that does not look like hex is returned unchanged; text that does decodes, and only disassembly can then fail |
| Workbench.LooksLikeHexDecodes | crates/clvm-workbench/src/main.rs:82-84 | whatever `looks_like_hex` accepts, `decode_hex_input` decodes to half its digit count |
| Workbench.DecodeHexInputAgreesWithCore | crates/clvm-workbench/src/main.rs:92-105 | the workbench decoder and `decode_hex` of util.rs succeed, agree and fail for odd length on exactly the same inputs |
| Workbench.BarePrefixDecodesButIsNotHex | crates/clvm-workbench/src/main.rs:107-113 | `"0x"` decodes to no bytes yet is not classified as hex |
| Workbench.PaddedHexDecodesButIsNotHex | crates/clvm-workbench/src/main.rs:107-117 | `" ab"` decodes to `[0xab]` yet is not classified as hex, since the classifier does not trim |
| Features.AtomValueFacts | crates/chia-inspect-core/src/inspect.rs:662-690 | the empty atom reads as 0; `[0x7f]` reads as 127 and `[0x00,0x80]` as 128; a leading high bit or more than 8 bytes gives none; every value is below 2^63 |
| Features.AtomToU64 | crates/chia-inspect-core/src/inspect.rs:662-677 | the shifting loop computes the big-endian value of the atom, with no `u64` overflow |
| Features.Features | crates/chia-inspect-core/src/inspect.rs:590-660 | operator names come from the keyword table; env paths lie in 1..u32::MAX; small ints are at most 1 000 000; quoted data records no operator and no env path; for whole trees see `OperatorsAreLeftAtoms` and `EnvPathsAreRightAtoms` |
| Features.FeatureAccumulator.AddAtom | crates/chia-inspect-core/src/inspect.rs:640-658 | the five sets grow by exactly what one atom contributes |
| Features.Visit | crates/chia-inspect-core/src/inspect.rs:590-660 | the recursive walk adds to the sets exactly the features of the tree |
| Features.ExtractStaticFeatures | crates/chia-inspect-core/src/inspect.rs:557-587 | every output list holds exactly the elements of its set, strictly ascending |
| Features.BucketsCollectAllAtoms | crates/chia-inspect-core/src/inspect.rs:644-653 | the 32-byte, 48-byte and small-int buckets hold every atom of the tree, quoted or not |
| Features.AtomEnvPath | crates/chia-inspect-core/src/inspect.rs:650-656 | an atom is an env path exactly when it is unquoted, not in operator position, and reads as 1..u32::MAX |
| Features.QuoteFormRecordsOnlyQuote | crates/chia-inspect-core/src/inspect.rs:604-638 | in `(q . x)` only `q` is recorded as an operator, and no env path comes from the quoted body |
| Features.OperatorPositionCounts | crates/chia-inspect-core/src/inspect.rs:608-656 | in `(a . b)` the left atom counts as an operator and only the right atom as an env path |
| Features.OperatorsAreLeftAtoms | crates/chia-inspect-core/src/inspect.rs:602-638 | in a tree with no quote atom in operator position, the operators recorded are exactly the keyword names of the atoms that are left children of a pair |
| Features.EnvPathsAreRightAtoms | crates/chia-inspect-core/src/inspect.rs:602-656 | in such a tree, the env paths recorded are exactly the in-range values of the atoms that are right children of a pair (and of the root atom outside operator position) |
| Features.OperatorsWithinLeftAtoms | crates/chia-inspect-core/src/inspect.rs:602-638 | for every tree, quoted parts included, every operator recorded is the keyword name of a left-child atom |
| Features.EnvPathsWithinPathAtoms | crates/chia-inspect-core/src/inspect.rs:602-656 | for every tree, quoted parts included, every env path recorded is the in-range value of a right-child atom (or of the root atom outside operator position) |
| Features.ListArgumentMisread | crates/chia-inspect-core/src/inspect.rs:602-656 | on the call `(A B)`, the argument `B` is recorded as an operator and never as an env path, although read as code it is an env path |
| Features.CallArgumentsAreEnvPaths | crates/chia-inspect-core/src/inspect.rs:590-656 | read as code, the call `(op a1 ... an)` names only `op` as an operator, and its in-range arguments are exactly its env paths |
| Features.PresentationIsUnique | crates/chia-inspect-core/src/inspect.rs:578-586 | the sorted lists of a set of features are unique |
| Ordering.SortedElements | crates/chia-inspect-core/src/inspect.rs:579-585 | iterating a `BTreeSet` yields its elements strictly ascending, each once |
| Ordering.SortBy | crates/chia-inspect-core/src/inspect.rs:102-105 | `sort_by` yields a permutation of its input, sorted by the comparator |
| Ordering.SortByStable | crates/chia-inspect-core/src/inspect.rs:102-105 | `sort_by` is stable: the elements equivalent to any given one keep their input order |
| Ordering.InsertByStable | crates/chia-inspect-core/src/inspect.rs:102-105 | one insertion step puts the new element before the equivalent elements already present |
| Ordering.InsertBySorted | crates/chia-inspect-core/src/inspect.rs:102-105 | one insertion step keeps the list sorted and adds exactly one element |
| Ordering.StrLessIsStrictTotalOrder | crates/chia-inspect-core/src/inspect.rs:102-104 | string comparison is irreflexive, transitive and total |
| Summary.CoinRefFromCoinDecodes | crates/chia-inspect-core/src/inspect.rs:522-529 | the id, parent and puzzle hash of a coin reference are prefixed hex that decode back to the coin's bytes; the amount is copied |
| Summary.AggSigInfoOfDecodes | crates/chia-inspect-core/src/inspect.rs:95-100 | the public key and message are prefixed hex that decode back to the pair |
| Summary.AmountToConcat | crates/chia-inspect-core/src/inspect.rs:505-512 | the per-hash total of two lists of coins is the sum of their totals |
| Summary.AmountToPermutation | crates/chia-inspect-core/src/inspect.rs:102-112 | the per-hash total of a list of coins does not depend on its order |
| Summary.ComputeNetDelta | crates/chia-inspect-core/src/inspect.rs:505-520 | one entry per puzzle hash seen in removals or additions, in strictly ascending hash order, each equal to the additions minus the removals for that hash |
| Summary.EntriesInKeyOrder | crates/chia-inspect-core/src/inspect.rs:514-519 | the entries of a `BTreeMap`, in ascending key order, with their values |
| Summary.FeeMojosMeaning | crates/chia-inspect-core/src/inspect.rs:107-111 | `FeeMojos` (`fee_mojos`): the fee is zero when additions cover removals, equals the surplus when it fits in `u64`, and is `u64::MAX` exactly when the surplus is that large or larger |
| Summary.Min | crates/chia-inspect-core/src/inspect.rs:85 | the smaller of the two counts |
| Summary.CoinIdLeIsTotalPreorder | crates/chia-inspect-core/src/inspect.rs:102-103 | comparing coin references by coin id is a total preorder |
| Summary.AggSigLeIsTotalPreorder | crates/chia-inspect-core/src/inspect.rs:104-105 | comparing by public key, then by message, is a total preorder |
| Summary.RemovalsOf | crates/chia-inspect-core/src/inspect.rs:90 | one coin reference per spent coin, in order |
| Summary.AggSigInfos | crates/chia-inspect-core/src/inspect.rs:95-100 | one signature record per AGG_SIG_UNSAFE pair, in order |
| Summary.CollectSpends | crates/chia-inspect-core/src/inspect.rs:85-93 | the loop visits `min(coin spends, owned spends)` spends and collects their removals, additions and AGG_SIG_ME records |
| Summary.CollectAggSigUnsafe | crates/chia-inspect-core/src/inspect.rs:95-100 | the loop collects one record per AGG_SIG_UNSAFE pair |
| Summary.BuildSummary | crates/chia-inspect-core/src/inspect.rs:72-112 | the removal count is the smaller of the two spend counts; all four lists are sorted permutations of what was collected; the fee is the saturating surplus; the net delta is computed from the summary's own removals and additions |
| Summary.NetDeltaOrderIndependent | crates/chia-inspect-core/src/inspect.rs:102-112 | sorting removals and additions before `compute_net_delta` changes no total and no hash |
| Summary.SignatureConditions | crates/chia-inspect-core/src/inspect.rs:465-472 | one condition per pair, with the opcode and the hex public key and message as arguments |
| Summary.SignatureNotes | crates/chia-inspect-core/src/inspect.rs:473-478 | one enforced-signature note per pair |
| Summary.AssertionConditions | crates/chia-inspect-core/src/inspect.rs:492-497 | one condition carrying the value when it is present, none otherwise |
| Summary.AssertionConstraints | crates/chia-inspect-core/src/inspect.rs:498-501 | one `{kind, value}` constraint when the value is present, none otherwise |
| Summary.SignatureConditionDecodes | crates/chia-inspect-core/src/inspect.rs:466-471 | each signature condition's two arguments decode back to the public key and the message |
| Summary.SignatureRecordsAgree | crates/chia-inspect-core/src/inspect.rs:465-482 | the condition, the note and the signature record written for one pair carry the same hex strings |
| Summary.SpendRecords.AddSignatureConditions | crates/chia-inspect-core/src/inspect.rs:458-484 | appends one condition, one note and one signature record per pair, in order, and leaves the constraints alone |
| Summary.SpendRecords.AddOptionalAssertion | crates/chia-inspect-core/src/inspect.rs:486-503 | appends one condition and one constraint when the value is present, nothing otherwise |
| Summary.AggSigList.Push | crates/chia-inspect-core/src/inspect.rs:479-482 | appends one record |
| Input.KindIsInjective | crates/chia-inspect-core/src/input.rs:16-22 | the three sources have distinct kinds, drawn from `mempool_item`, `block` and `coin` |
| Input.NormalizeFieldMeaning | crates/chia-inspect-core/src/input.rs:140-148 | fields other than `puzzle_reveal`/`solution` are copied; those two must be strings, which normalise exactly when the hex decodes, to lower-case hex without a prefix |
| Input.NormalizeFieldIdempotent | crates/chia-inspect-core/src/input.rs:140-148 | normalising a normalised field changes nothing |
| Input.SpendFailsUnique | crates/chia-inspect-core/src/input.rs:135-151 | a coin spend that fails fails with one error: the one for its least failing key |
| Input.NotNormalizableFails | crates/chia-inspect-core/src/input.rs:135-151 | every coin spend that cannot be normalised has a defined error |
| Input.NormalizedSpendMeaning | crates/chia-inspect-core/src/input.rs:139-150 | normalisation keeps the keys and every other field, and is idempotent |
| Input.NormalizeCoinSpendValue | crates/chia-inspect-core/src/input.rs:135-151 | a normalisable object gives the normalised object; anything else gives the error of the first failing key in key order, or the not-an-object error |
| Input.NormalizeCoinSpendArray | crates/chia-inspect-core/src/input.rs:124-133 | a non-array is rejected; an array normalises element by element, or fails with the first failing element's error |
| Input.NormalizeSpendBundleValue | crates/chia-inspect-core/src/input.rs:110-122 | an object with a `coin_spends` array normalises that array and keeps everything else; the other cases fail with their own error |
| Input.NormalizedBundleMeaning | crates/chia-inspect-core/src/input.rs:110-122 | keys, other fields and the number of coin spends are kept, and normalisation is idempotent |
| Input.ParseSpendBundleObject | crates/chia-inspect-core/src/input.rs:86-89 | normalise, then decode, with the decoder's error given its context |
| Input.ParseSpendBundleBytesMeaning | crates/chia-inspect-core/src/input.rs:91-94 | prefixed hex of some bytes is decoded as those bytes; a hex error is passed through |
| Input.ParseCoinSpend | crates/chia-inspect-core/src/input.rs:105-108 | normalise, then decode; success exactly when both succeed |
| Input.ParseCoinSpendList | crates/chia-inspect-core/src/input.rs:96-103 | a non-array is rejected; an array parses exactly when every element does, stopping at the first failure |
| Input.MempoolShapePriority | crates/chia-inspect-core/src/input.rs:35-46 | `spend_bundle` wins; a non-string `spend_bundle_bytes` is skipped; the shape error is raised exactly when none of the three keys is usable |
| Input.LoadFromScope | crates/chia-inspect-core/src/input.rs:35-46 | each shape is parsed by its own parser, and only the bytes shape adds the streamable note |
| Input.LoadMempoolBlobInput | crates/chia-inspect-core/src/input.rs:25-49 | the `mempool_item` wrapper is unwrapped with its note, the shape is chosen by priority, and the source is the mempool |
| Input.LoadBlockSpendsInput | crates/chia-inspect-core/src/input.rs:51-71 | `coin_spends`, then `block_spends`, then a bare array is parsed; the signature is the default, with the block note |
| Input.LoadCoinSpendInput | crates/chia-inspect-core/src/input.rs:73-84 | the `coin_spend` field or the document itself becomes a one-spend bundle with the default signature and the coin note |
| Layers.Rank | crates/chia-inspect-core/src/recognize.rs:150-210 | each template's position in the catalog |
| Layers.CatalogIsAnOrdering | crates/chia-inspect-core/src/recognize.rs:150-210 | the catalog lists the seventeen templates once each, in ascending rank |
| Layers.TryLayer | crates/chia-inspect-core/src/recognize.rs:212-987 | a match exists exactly when the puzzle parses; only wrapping layers have an inner puzzle; a missing solution gives `missing_solution` and no error; royalty transfer is always unsupported; on a parsed solution the status is ok with its fields and, for a wrapping layer, the library's inner solution is passed down; a parse error is set exactly when the solution fails to parse, with the library's message in the status and in `failed to parse <noun> solution: <message>`, and then nothing is passed down |
| Layers.MatchesOfFacts | crates/chia-inspect-core/src/recognize.rs:150-210 | each match comes from its own template, and every template whose puzzle parses contributes its match |
| Layers.MatchesOfOrdered | crates/chia-inspect-core/src/recognize.rs:150-210 | matches come out in the order the templates are tried |
| Layers.MatchesFacts | crates/chia-inspect-core/src/recognize.rs:150-210 | at most seventeen matches; one per template whose puzzle parses and no other; in catalog order |
| Layers.CollectMatches | crates/chia-inspect-core/src/recognize.rs:150-210 | `collect_matches` returns the catalog's matches |
| Layers.TryInOrder | crates/chia-inspect-core/src/recognize.rs:155-209 | trying templates one after another and keeping the hits yields their matches in order |
| Recognize.CandidateFromMatch | crates/chia-inspect-core/src/recognize.rs:989-997 | the candidate is named after the matched layer and carries the given confidence |
| Recognize.WrapperFor | crates/chia-inspect-core/src/recognize.rs:88-102 | the wrapper carries the layer's name and parse error, and has an inner puzzle hash exactly when the layer has an inner puzzle |
| Recognize.AmbiguousCandidates | crates/chia-inspect-core/src/recognize.rs:74-77 | one candidate at confidence 0.5 per match, in order |
| Recognize.MatchNames | crates/chia-inspect-core/src/recognize.rs:78-81 | the ambiguous layer lists the matches' names in order |
| Recognize.PlayRound | crates/chia-inspect-core/src/recognize.rs:69-129 | one iteration, equal to `Round`: no match halts; several matches halt as ambiguous; one match records a layer, then halts at a leaf or a hash cycle, or descends |
| Recognize.RecognizePuzzleAndSolution | crates/chia-inspect-core/src/recognize.rs:34-148 | the loop computes `Recognition`, which walks at most 32 rounds of `Round`, the loop body; `recognized` holds exactly when there is a wrapper; at most 32 wrappers, and never more wrappers than candidates |
| Recognize.PeelShape | crates/chia-inspect-core/src/recognize.rs:68-130 | each wrapper has a candidate of the same name at 0.8 or 1.0 by its parse error; any further candidates are ambiguous options at 0.5, never exactly one; no more wrappers than rounds; every wrapper but the last has an inner puzzle hash |
| Recognize.LayersDoNotDependOnSolution | crates/chia-inspect-core/src/recognize.rs:115-129 | the layers peeled, and their order, are the same whatever the solution |
| Recognize.MissingSolutionNeverFails | crates/chia-inspect-core/src/recognize.rs:55-115 | without a solution no wrapper has a parse error and no solution remains |
| Recognize.SingleMatch | crates/chia-inspect-core/src/recognize.rs:150-210 | a puzzle only one template parses has exactly that template's match |
| Recognize.UndecodablePuzzle | crates/chia-inspect-core/src/recognize.rs:40-52 | a puzzle that fails to decode is unrecognised, has no candidates and no wrappers, and reports the decode error |
| Recognize.UnmatchedPuzzle | crates/chia-inspect-core/src/recognize.rs:69-72 | a puzzle no template parses is unrecognised with empty lists; a parsed solution is reported exactly when the solution failed to decode |
| Recognize.AmbiguousRound | crates/chia-inspect-core/src/recognize.rs:74-83 | two or more matches give no wrapper and one 0.5 candidate per match, in catalog order, and one ambiguous layer naming them |
| Recognize.HashCycleStops | crates/chia-inspect-core/src/recognize.rs:117-127 | when the inner puzzle hashes like the current one, the current wrapper is kept and a stop layer is appended |
| Recognize.CatAroundStandard | crates/chia-inspect-core/tests/recognize_layers.rs:53-88 | a CAT around a standard puzzle is recognised as `cat_layer` then `standard_layer`, both at confidence 1.0 |
| Recognize.StandardWithBadSolution | crates/chia-inspect-core/src/recognize.rs:943-987 | a standard puzzle with an unparseable solution is recognised at confidence 0.8 with the standard parse error |

## Left out

- Json.Value: a JSON number is an unbounded integer. Fractional and exponent numbers (`f64` in serde_json) are not modelled. The modelled code never reads a number itself. Numbers are passed unchanged to the serde decoders, which are parameters.
- JSON text parsing (`serde_json::from_str`) is not modelled; every loader starts from a parsed `Value`. serde's typed decoders and `SpendBundle::from_bytes` are parameters, so the wording of their errors is not modelled.
- `serde_json::Map` is taken to be ordered by key, as with serde_json's default features. This decides which field's error `normalize_coin_spend_value` reports first.
- The rendered text of `anyhow` errors is left out. Errors are values: context messages are kept verbatim, and `hex` crate errors are reduced to odd length or invalid character.
- CLVM deserialization (`node_from_bytes_backrefs`), the CLVM tree hasher, the disassembler and the operator keyword table belong to the clvmr and chia libraries, and are inputs to the model.
- `read_text_input` in util.rs and `main` in both binaries do file and console I/O, and are not part of this model.
- `inspect_bundle`, `build_error_output`, `analyze_single_spend` and `analyze_clvm_bytes` run the CLVM executor and consensus code. They are not part of this model. Each spend's additions and AGG_SIG_ME pairs enter `Summary.BuildSummary` as the `owned` parameter.
- Summary.BuildSummary: it omits the constant output fields, which are the schema version, the tool, the network and the aggregated signature.
- Summary.ComputeNetDelta: the totals are unbounded integers rather than `i128`. With `u64` amounts and realistic list lengths, `i128` cannot overflow.
- Ordering.SortBy: `Vec::sort_by` sorts in place; the model is a function on values. Order, permutation and stability (`Ordering.SortByStable`) are proved; the in-place update is not modelled.
- Recognize.RecognizePuzzleAndSolution: confidence is an enum of its three values 0.5, 0.8 and 1.0, not an `f64`.
- Recognize.RecognizePuzzleAndSolution: the JSON the templates build for a layer's parameters and solution is reduced to a status (`ok` with fields, `error` with a message, `missing_solution`, unsupported).
- Recognize.RecognizePuzzleAndSolution: the `parsed_debug` strings and the tree hashes in that JSON are not modelled, and neither is `node_summary` of the remaining solution.
- Workbench.NormalizeProgramInput: the disassembled text comes from a parameter, so the contract says only which branch is taken and that decoding succeeds on the hex branch.

## Findings

| source | as written | input that shows it | evidently intended | confidence | as-written member | corrected member |
|---|---|---|---|---|---|---|
| crates/chia-inspect-core/src/inspect.rs:602-656 | every left child of a pair counts as operator position, including the arguments of a call, since `(A B)` is `(A . (B . ()))` | `(+ 2)`, the tree `(16 . (2 . ()))`: operators {"+", "a"}, env paths {} | the arguments of a call are data or code, so the path `2` is an env path and `a` is not an operator | not executed; medium, since the heuristic may be deliberate | Features.ListArgumentMisread | Features.CallArgumentsAreEnvPaths |

`Features.ExtractStaticFeatures` still models the walk as written, because its
output is what the tool prints. The walk read as code is
`Features.CodeOperators` and `Features.CodeEnvPaths`.
