/**
 Derivation paths of extended public keys, in the notation of section "The key tree" of
 BIP 32: what is recorded for an address against the derivations that led to its key.
 */
module HdPath {
  import opened Values
  import opened Text

  // Child numbers from here on are hardened; a public key cannot derive them.
  const HARDENED: int := 0x8000_0000

  // A public key knows its depth and its own child number; `path` is how it was derived from
  // the master, which the program does not see.
  datatype ExtendedKey = ExtendedKey(path: seq<uint32>)
  {
    function Depth(): nat { |path| }

    function ChildIndex(): uint32 { if path == [] then 0 else path[|path| - 1] }
  }

  datatype Error = PrefixRequired | AccountSegmentRequired | DerivationFailed

  // The depth of a key is stored in one byte.
  const MAX_DEPTH := 255

  function Derive(key: ExtendedKey, index: uint32): Result<ExtendedKey, Error> {
    if key.Depth() >= MAX_DEPTH || index >= HARDENED then Failure(DerivationFailed)
    else Success(ExtendedKey(key.path + [index]))
  }

  function DeriveAddressKey(key: ExtendedKey, index: uint32): Result<ExtendedKey, Error> {
    var external := if key.Depth() <= 3 then Derive(key, 0) else Success(key);
    if external.Failure? then external else Derive(external.value, index)
  }

  function FormatIndex(index: uint32): string {
    if index >= HARDENED then Decimal(index - HARDENED) + "'" else Decimal(index)
  }

  function ParseIndex(s: string): Option<uint32> {
    if s != "" && s[|s| - 1] == '\'' then
      var low := ParseDecimal(s[..|s| - 1]);
      if low.Some? && low.value < HARDENED then Some(low.value + HARDENED) else None
    else
      var low := ParseDecimal(s);
      if low.Some? && low.value < HARDENED then Some(low.value) else None
  }

  // The relative path prints the index as a plain number.
  function RelativePath(key: ExtendedKey, index: uint32): string {
    if key.Depth() <= 3 then "0/" + Decimal(index)
    else if key.Depth() == 4 then FormatIndex(key.ChildIndex()) + "/" + Decimal(index)
    else Decimal(index)
  }

  function NormalizePrefix(raw: string): Result<string, Error> {
    var trimmed := Trim(raw);
    var prefix := if trimmed != "" && trimmed[|trimmed| - 1] == '/' then trimmed[..|trimmed| - 1] else trimmed;
    if "m/" <= prefix then Success(prefix) else Failure(PrefixRequired)
  }

  // White space around a prefix and one slash at its end make no difference.
  lemma PrefixIsNormalized(a: string, prefix: string, b: string)
    requires AllSpace(a) && AllSpace(b) && Trimmed(prefix) && "m/" <= prefix && prefix[|prefix| - 1] != '/'
    ensures NormalizePrefix(a + prefix + b) == NormalizePrefix(a + (prefix + "/") + b) == Success(prefix)
  {
    TrimDropsSpace(a, prefix, b);
    TrimDropsSpace(a, prefix + "/", b);
    TrimOfTrimmed(prefix);
    TrimOfTrimmed(prefix + "/");
    assert (prefix + "/")[..|prefix|] == prefix;
  }

  function ReplaceAccountSegment(prefix: string, segment: string): Result<string, Error> {
    var segments := Split(prefix, '/');
    if |segments| < 4 then Failure(AccountSegmentRequired)
    else Success(Join(segments[|segments| - 1 := segment], '/'))
  }

  function AbsolutePath(key: ExtendedKey, rawPrefix: string, index: uint32): Result<string, Error> {
    var prefix := NormalizePrefix(rawPrefix);
    if prefix.Failure? then prefix
    else
      var account :=
        if key.Depth() == 3 then ReplaceAccountSegment(prefix.value, FormatIndex(key.ChildIndex())) else prefix;
      if account.Failure? then account else Success(account.value + "/" + RelativePath(key, index))
  }

  /******* Reading paths back *******/

  function ParseIndexes(segments: seq<string>): Option<seq<uint32>> {
    if segments == [] then Some([])
    else
      var first, rest := ParseIndex(segments[0]), ParseIndexes(segments[1..]);
      if first.None? || rest.None? then None else Some([first.value] + rest.value)
  }

  function ParsePath(s: string): Option<seq<uint32>> {
    var segments := Split(s, '/');
    if segments[0] == "m" then ParseIndexes(segments[1..]) else None
  }

  // Printing and reading back are inverse for every child number, hardened or not.
  lemma ParseUndoesFormat(index: uint32)
    ensures ParseIndex(FormatIndex(index)) == Some(index)
    ensures FormatIndex(index) == if index >= HARDENED then Decimal(index - HARDENED) + "'" else Decimal(index)
  {
    ParseUndoesDecimal(if index >= HARDENED then index - HARDENED else index);
    if index >= HARDENED {
      var s := FormatIndex(index);
      assert s[..|s| - 1] == Decimal(index - HARDENED);
    }
  }

  lemma FormatUndoesParse(s: string)
    requires ParseIndex(s).Some?
    ensures FormatIndex(ParseIndex(s).value) == s
  {
    if s != "" && s[|s| - 1] == '\'' {
      DecimalUndoesParse(s[..|s| - 1]);
      assert s == s[..|s| - 1] + "'";
    } else {
      DecimalUndoesParse(s);
    }
  }

  lemma FormatHasNoSlash(index: uint32)
    ensures Free(FormatIndex(index), '/') && Free(Decimal(index), '/')
  {
    assert forall i | 0 <= i < |Decimal(index)| :: IsDigit(Decimal(index)[i]);
  }

  lemma {:induction false} ParseConcat(a: seq<string>, b: seq<string>)
    ensures ParseIndexes(a + b) ==
            if ParseIndexes(a).Some? && ParseIndexes(b).Some? then Some(ParseIndexes(a).value + ParseIndexes(b).value)
              else None
  {
    if a == [] {
      assert a + b == b;
      if ParseIndexes(b).Some? { assert [] + ParseIndexes(b).value == ParseIndexes(b).value; }
    } else {
      ParseConcat(a[1..], b);
      assert (a + b)[1..] == a[1..] + b && (a + b)[0] == a[0];
      var first, x, y := ParseIndex(a[0]), ParseIndexes(a[1..]), ParseIndexes(b);
      if first.Some? && x.Some? && y.Some? {
        assert [first.value] + (x.value + y.value) == ([first.value] + x.value) + y.value;
      }
    }
  }

  lemma {:induction false} ParseLength(segments: seq<string>)
    requires ParseIndexes(segments).Some?
    ensures |ParseIndexes(segments).value| == |segments|
  {
    if segments != [] { ParseLength(segments[1..]); }
  }

  // The indexes that the relative path adds.
  function RelativeIndexes(key: ExtendedKey, index: uint32): seq<uint32> {
    if key.Depth() <= 3 then [0, index] else if key.Depth() == 4 then [key.ChildIndex(), index] else [index]
  }

  lemma ParseOne(index: uint32)
    ensures ParseIndexes([FormatIndex(index)]) == Some([index])
  {
    ParseUndoesFormat(index);
    assert [FormatIndex(index)][1..] == [];
    assert [index] + [] == [index];
  }

  lemma RelativeParses(key: ExtendedKey, index: uint32)
    requires index < HARDENED
    ensures ParseIndexes(Split(RelativePath(key, index), '/')) == Some(RelativeIndexes(key, index))
  {
    FormatHasNoSlash(index);
    FormatHasNoSlash(key.ChildIndex());
    SplitFree(Decimal(index), '/');
    ParseOne(index);
    if key.Depth() <= 4 {
      var branch: uint32 := if key.Depth() <= 3 then 0 else key.ChildIndex();
      FormatHasNoSlash(branch);
      SplitFree(FormatIndex(branch), '/');
      SplitConcat(FormatIndex(branch), Decimal(index), '/');
      assert key.Depth() <= 3 ==> FormatIndex(branch) == "0";
      assert RelativePath(key, index) == FormatIndex(branch) + "/" + Decimal(index);
      ParseOne(branch);
      ParseConcat([FormatIndex(branch)], [FormatIndex(index)]);
      assert [branch] + [index] == [branch, index];
    }
  }

  // Appending the relative path appends its indexes, and repairs nothing that does not read.
  lemma AppendedParses(prefix: string, key: ExtendedKey, index: uint32)
    requires index < HARDENED
    ensures var levels := ParsePath(prefix);
      ParsePath(prefix + "/" + RelativePath(key, index)) ==
      if levels.Some? then Some(levels.value + RelativeIndexes(key, index)) else None
  {
    var relative := RelativePath(key, index);
    SplitConcat(prefix, relative, '/');
    RelativeParses(key, index);
    var a, b := Split(prefix, '/'), Split(relative, '/');
    assert (a + b)[1..] == a[1..] + b;
    ParseConcat(a[1..], b);
  }

  // The levels above the account segment, whatever that segment says.
  function LevelsAbove(prefix: string): Option<seq<uint32>> {
    var segments := Split(prefix, '/');
    if segments[0] == "m" && |segments| > 1 then ParseIndexes(segments[1..|segments| - 1]) else None
  }

  // Replacing the last segment puts the given number in its place without reading it.
  lemma ReplacedParses(prefix: string, segment: uint32)
    requires Split(prefix, '/')[0] == "m"
    ensures var above := LevelsAbove(prefix);
      var r := ReplaceAccountSegment(prefix, FormatIndex(segment));
      && (r.Success? <==> |Split(prefix, '/')| >= 4)
      && (r.Success? ==> ParsePath(r.value) == if above.Some? then Some(above.value + [segment]) else None)
  {
    var segments := Split(prefix, '/');
    if |segments| >= 4 {
      var text := FormatIndex(segment);
      var n := |segments| - 1;
      var replaced := segments[n := text];
      PartsAreFree(prefix, '/');
      FormatHasNoSlash(segment);
      SplitJoin(replaced, '/');
      assert replaced[1..] == segments[1..n] + [text];
      ParseConcat(segments[1..n], [text]);
      ParseOne(segment);
    }
  }

  /******* The recorded path and the derived key *******/

  // Above the branch level, addresses are on branch 0, the external one; from there on the index is
  // the only level added. The indexes that are not hardened can be derived, as long as the key is
  // not too deep.
  lemma AddressIsOnTheExternalBranch(key: ExtendedKey, index: uint32)
    ensures var r := DeriveAddressKey(key, index);
      && (r.Success? <==> index < HARDENED && |key.path| < 255)
      && (r.Success? ==> r.value.path == if |key.path| <= 3 then key.path + [0, index] else key.path + [index])
  {
    assert key.path + [0] + [index] == key.path + [0, index];
  }

  // The same levels as they are recorded.
  lemma ExternalBranchIsRecorded(key: ExtendedKey, index: uint32)
    ensures Split(RelativePath(key, index), '/') ==
      if |key.path| <= 3 then ["0", Decimal(index)]
      else if |key.path| == 4 then [FormatIndex(key.path[3]), Decimal(index)]
      else [Decimal(index)]
  {
    FormatHasNoSlash(index);
    SplitFree(Decimal(index), '/');
    if |key.path| <= 4 {
      var branch := if |key.path| <= 3 then "0" else FormatIndex(key.ChildIndex());
      FormatHasNoSlash(key.ChildIndex());
      SplitFree(branch, '/');
      SplitConcat(branch, Decimal(index), '/');
    }
  }

  // The levels that the recorded path takes from the prefix. At depth 3 the account is not
  // among them, since the key's own child number takes its place.
  function KeptLevels(key: ExtendedKey, prefix: string): Option<seq<uint32>> {
    if key.Depth() == 3 then LevelsAbove(prefix) else ParsePath(prefix)
  }

  // The true levels that they have to be.
  function TrueLevels(key: ExtendedKey): seq<uint32> {
    if key.Depth() == 3 then key.path[..2] else if key.Depth() == 4 then key.path[..3] else key.path
  }

  lemma PrefixStartsAtMaster(rawPrefix: string)
    requires NormalizePrefix(rawPrefix).Success?
    ensures Split(NormalizePrefix(rawPrefix).value, '/')[0] == "m"
  {
    var prefix := NormalizePrefix(rawPrefix).value;
    assert prefix == "m" + ['/'] + prefix[2..];
    SplitFree("m", '/');
    SplitConcat("m", prefix[2..], '/');
  }

  // For every key, every prefix and every index that can be derived: the recorded path reads
  // back as exactly the derivations of the address key if and only if the levels it takes from
  // the prefix are the true ones.
  lemma RecordedPathIsDerivation(key: ExtendedKey, rawPrefix: string, index: uint32)
    requires DeriveAddressKey(key, index).Success?
    ensures var prefix := NormalizePrefix(rawPrefix);
      var recorded := AbsolutePath(key, rawPrefix, index);
      && (recorded.Success? <==> prefix.Success? && (key.Depth() == 3 ==> |Split(prefix.value, '/')| >= 4))
      && (recorded.Success? && ParsePath(recorded.value) == Some(DeriveAddressKey(key, index).value.path)
          <==> prefix.Success? && KeptLevels(key, prefix.value) == Some(TrueLevels(key)))
  {
    if NormalizePrefix(rawPrefix).Success? {
      PrefixStartsAtMaster(rawPrefix);
      if key.Depth() == 3 {
        AccountPath(key, NormalizePrefix(rawPrefix).value, index);
      } else {
        BranchPath(key, NormalizePrefix(rawPrefix).value, index);
      }
    }
  }

  lemma AccountPath(key: ExtendedKey, prefix: string, index: uint32)
    requires DeriveAddressKey(key, index).Success? && key.Depth() == 3 && Split(prefix, '/')[0] == "m"
    ensures var account := ReplaceAccountSegment(prefix, FormatIndex(key.ChildIndex()));
      && (account.Success? <==> |Split(prefix, '/')| >= 4)
      && (account.Success? && ParsePath(account.value + "/" + RelativePath(key, index))
                              == Some(DeriveAddressKey(key, index).value.path)
          <==> LevelsAbove(prefix) == Some(key.path[..2]))
  {
    ReplacedParses(prefix, key.ChildIndex());
    var above := LevelsAbove(prefix);
    if above.Some? { ParseLength(Split(prefix, '/')[1..|Split(prefix, '/')| - 1]); }
    if |Split(prefix, '/')| >= 4 {
      AppendedParses(ReplaceAccountSegment(prefix, FormatIndex(key.ChildIndex())).value, key, index);
      if above.Some? { AccountFits(key.path, above.value, index); }
    }
  }

  lemma BranchPath(key: ExtendedKey, prefix: string, index: uint32)
    requires DeriveAddressKey(key, index).Success? && key.Depth() != 3
    ensures ParsePath(prefix + "/" + RelativePath(key, index)) == Some(DeriveAddressKey(key, index).value.path)
            <==> ParsePath(prefix) == Some(TrueLevels(key))
  {
    AppendedParses(prefix, key, index);
    if ParsePath(prefix).Some? {
      var levels := ParsePath(prefix).value;
      if key.Depth() == 4 {
        BranchFits(key.path, levels, index);
      } else {
        TailFits(key.path, levels, RelativeIndexes(key, index));
      }
    }
    assert key.Depth() <= 2 ==> DeriveAddressKey(key, index).value.path == key.path + [0, index];
  }

  lemma TailFits(path: seq<uint32>, levels: seq<uint32>, tail: seq<uint32>)
    ensures levels + tail == path + tail <==> levels == path
  {
    if levels + tail == path + tail {
      assert levels == (levels + tail)[..|levels|] && path == (path + tail)[..|path|];
    }
  }

  lemma AccountFits(path: seq<uint32>, above: seq<uint32>, index: uint32)
    requires |path| == 3
    ensures above + [path[2]] + [0, index] == path + [0] + [index] <==> above == path[..2]
  {
    assert path + [0] + [index] == path[..2] + [path[2], 0, index];
    assert above + [path[2]] + [0, index] == above + [path[2], 0, index];
    TailFits(path[..2], above, [path[2], 0, index]);
  }

  lemma BranchFits(path: seq<uint32>, levels: seq<uint32>, index: uint32)
    requires |path| == 4
    ensures levels + [path[3], index] == path + [index] <==> levels == path[..3]
  {
    assert path + [index] == path[..3] + [path[3], index];
    TailFits(path[..3], levels, [path[3], index]);
  }
}
