/**
 The reference of a CREATE2 address space: a version, and the factory, the collector and the
 init code hash as named fields.
 */
module SourceRef {
  import opened Values
  import opened Text
  import opened Hex

  datatype Error = RefRequired | FormatInvalid | FieldInvalid(reason: Hex.Error)

  datatype Ref = Ref(factory: string, collector: string, initCodeHash: string)

  const VERSION := "create2.v1"

  function Build(factory: string, collector: string, initCodeHash: string): Result<string, Error> {
    var f := NormalizeFixed(factory, 20);
    var c := NormalizeFixed(collector, 20);
    var h := NormalizeFixed(initCodeHash, 32);
    if f.Failure? then Failure(FieldInvalid(f.error))
    else if c.Failure? then Failure(FieldInvalid(c.error))
    else if h.Failure? then Failure(FieldInvalid(h.error))
    else Success(Print(Ref(f.value.0, c.value.0, h.value.0)))
  }

  function PartsOf(r: Ref): seq<string> {
    ["factory=" + r.factory, "collector=" + r.collector, "init_code_hash=" + r.initCodeHash]
  }

  function Payload(r: Ref): string { PartsOf(r)[0] + ";" + PartsOf(r)[1] + ";" + PartsOf(r)[2] }

  const HEADER := VERSION + ":"

  function Print(r: Ref): string { HEADER + Payload(r) }

  /******* Reading *******/

  // `strings.Cut` at the first equals sign.
  function Cut(part: string): Option<(string, string)> {
    if part == "" then None
    else if part[0] == '=' then Some(("", part[1..]))
    else
      var rest := Cut(part[1..]);
      if rest.None? then None else Some(([part[0]] + rest.value.0, rest.value.1))
  }

  // A field of the payload, white space around name and value removed.
  function FieldOf(part: string): Option<(string, string)> {
    var cut := Cut(part);
    if cut.None? || Trim(cut.value.0) == "" || Trim(cut.value.1) == "" then None
    else Some((Trim(cut.value.0), Trim(cut.value.1)))
  }

  predicate AreFields(parts: seq<string>) {
    && (forall i | 0 <= i < |parts| :: FieldOf(parts[i]).Some?)
    && (forall i, j | 0 <= i < j < |parts| :: FieldOf(parts[i]).value.0 != FieldOf(parts[j]).value.0)
  }

  function Fields(parts: seq<string>): map<string, string>
    requires AreFields(parts)
  {
    if parts == [] then map[]
    else
      var field := FieldOf(parts[|parts| - 1]).value;
      Fields(parts[..|parts| - 1])[field.0 := field.1]
  }

  // Reading a field that is not there gives the empty string.
  function ValueAt(values: map<string, string>, name: string): string {
    if name in values then values[name] else ""
  }

  function FromFields(values: map<string, string>): Result<Ref, Error> {
    var f := NormalizeFixed(ValueAt(values, "factory"), 20);
    var c := NormalizeFixed(ValueAt(values, "collector"), 20);
    var h := NormalizeFixed(ValueAt(values, "init_code_hash"), 32);
    if f.Failure? then Failure(FieldInvalid(f.error))
    else if c.Failure? then Failure(FieldInvalid(c.error))
    else if h.Failure? then Failure(FieldInvalid(h.error))
    else Success(Ref(f.value.0, c.value.0, h.value.0))
  }

  function ParseParts(parts: seq<string>): Result<Ref, Error> {
    if |parts| != 3 || !AreFields(parts) then Failure(FormatInvalid) else FromFields(Fields(parts))
  }

  function ParseRef(raw: string): Result<Ref, Error> {
    var trimmed := Trim(raw);
    if trimmed == "" then Failure(RefRequired)
    else if !(HEADER <= trimmed) then Failure(FormatInvalid)
    else ParseParts(Split(trimmed[|HEADER|..], ';'))
  }

  // The fields so far hold the name and the value of every part, and no other name.
  lemma {:induction false} FieldHeld(parts: seq<string>, i: nat)
    requires AreFields(parts) && i < |parts|
    ensures FieldOf(parts[i]).Some?
    ensures var field := FieldOf(parts[i]).value; field.0 in Fields(parts) && Fields(parts)[field.0] == field.1
  {
    var n := |parts| - 1;
    if i < n {
      assert parts[..n][i] == parts[i];
      FieldHeld(parts[..n], i);
    }
  }

  lemma {:induction false} FieldNamed(parts: seq<string>, name: string) returns (i: nat)
    requires AreFields(parts) && name in Fields(parts)
    ensures i < |parts| && FieldOf(parts[i]).Some? && FieldOf(parts[i]).value.0 == name
  {
    var n := |parts| - 1;
    if FieldOf(parts[n]).value.0 == name { return n; }
    i := FieldNamed(parts[..n], name);
    assert parts[..n][i] == parts[i];
  }

  // One more part keeps the names apart exactly when its name is new.
  lemma NextField(before: seq<string>, part: string)
    requires AreFields(before)
    ensures AreFields(before + [part]) <==>
            FieldOf(part).Some? && FieldOf(part).value.0 !in Fields(before)
    ensures AreFields(before + [part]) ==>
            Fields(before + [part]) == Fields(before)[FieldOf(part).value.0 := FieldOf(part).value.1]
  {
    assert (before + [part])[..|before|] == before && (before + [part])[|before|] == part;
    if FieldOf(part).Some? {
      if FieldOf(part).value.0 in Fields(before) { NameTwice(before, part); } else { NameOnce(before, part); }
    }
  }

  lemma NameOnce(before: seq<string>, part: string)
    requires AreFields(before) && FieldOf(part).Some? && FieldOf(part).value.0 !in Fields(before)
    ensures AreFields(before + [part]) == true
  {
    var all := before + [part];
    forall i | 0 <= i < |before|
      ensures all[i] == before[i] && FieldOf(before[i]).value.0 != FieldOf(part).value.0
    {
      FieldHeld(before, i);
    }
  }

  lemma NameTwice(before: seq<string>, part: string)
    requires AreFields(before) && FieldOf(part).Some? && FieldOf(part).value.0 in Fields(before)
    ensures AreFields(before + [part]) == false
  {
    var i := FieldNamed(before, FieldOf(part).value.0);
    assert (before + [part])[i] == before[i] && (before + [part])[|before|] == part;
  }

  // The fields are collected into a map, and a name given twice is refused.
  method CollectFields(parts: seq<string>) returns (r: Option<map<string, string>>)
    ensures r == if AreFields(parts) then Some(Fields(parts)) else None
  {
    var values: map<string, string> := map[];
    for n := 0 to |parts|
      invariant AreFields(parts[..n]) && values == Fields(parts[..n])
    {
      assert parts[..n + 1] == parts[..n] + [parts[n]];
      NextField(parts[..n], parts[n]);
      var cut := Cut(parts[n]);
      if cut.None? || Trim(cut.value.0) == "" || Trim(cut.value.1) == "" || Trim(cut.value.0) in values {
        PrefixFails(parts, n + 1);
        return None;
      }
      values := values[Trim(cut.value.0) := Trim(cut.value.1)];
    }
    assert parts[..|parts|] == parts;
    return Some(values);
  }

  lemma PrefixFails(parts: seq<string>, n: nat)
    requires n <= |parts| && !AreFields(parts[..n])
    ensures !AreFields(parts)
  {
    if AreFields(parts) {
      assert forall i | 0 <= i < n :: parts[..n][i] == parts[i];
      assert AreFields(parts[..n]);
    }
  }

  method Parse(raw: string) returns (r: Result<Ref, Error>)
    ensures r == ParseRef(raw)
  {
    var trimmed := Trim(raw);
    if trimmed == "" { return Failure(RefRequired); }
    if !(HEADER <= trimmed) { return Failure(FormatInvalid); }
    var parts := Split(trimmed[|HEADER|..], ';');
    if |parts| != 3 { return Failure(FormatInvalid); }
    var values := CollectFields(parts);
    r := if values.None? then Failure(FormatInvalid) else FromFields(values.value);
  }

  /******* Reading back what was built *******/

  lemma {:induction false} CutAtFirst(name: string, value: string)
    requires Free(name, '=')
    ensures Cut(name + "=" + value) == Some((name, value))
  {
    var part := name + "=" + value;
    if name == "" {
      assert part[1..] == value;
    } else {
      CutAtFirst(name[1..], value);
      assert part[1..] == name[1..] + "=" + value && part[0] == name[0];
      assert name == [name[0]] + name[1..];
    }
  }

  lemma FieldReads(name: string, value: string)
    requires Free(name, '=') && Trimmed(name) && Trimmed(value) && name != "" && value != ""
    ensures FieldOf(name + "=" + value) == Some((name, value))
  {
    CutAtFirst(name, value);
    TrimOfTrimmed(name);
    TrimOfTrimmed(value);
  }

  // A triple as normalization leaves it.
  ghost predicate Normalized(r: Ref) {
    exists f: seq<byte>, c: seq<byte>, h: seq<byte> :: Stands(r, f, c, h)
  }

  predicate Stands(r: Ref, f: seq<byte>, c: seq<byte>, h: seq<byte>) {
    && |f| == 20 && |c| == 20 && |h| == 32
    && r == Ref(Canonical(f), Canonical(c), Canonical(h))
  }

  lemma OneField(p: string)
    requires FieldOf(p).Some?
    ensures AreFields([p]) == true && Fields([p]) == map[FieldOf(p).value.0 := FieldOf(p).value.1]
  {
    assert [p][..0] == [];
  }

  lemma TwoFields(p: string, q: string)
    requires FieldOf(p).Some? && FieldOf(q).Some? && FieldOf(p).value.0 != FieldOf(q).value.0
    ensures AreFields([p, q]) == true
    ensures Fields([p, q]) == map[FieldOf(p).value.0 := FieldOf(p).value.1, FieldOf(q).value.0 := FieldOf(q).value.1]
  {
    OneField(p);
    NextField([p], q);
    assert [p] + [q] == [p, q];
  }

  // Three fields with their own names, one after the other.
  lemma ThreeFields(p: string, q: string, r: string)
    requires FieldOf(p).Some? && FieldOf(q).Some? && FieldOf(r).Some?
    requires FieldOf(p).value.0 != FieldOf(q).value.0
    requires FieldOf(p).value.0 != FieldOf(r).value.0 && FieldOf(q).value.0 != FieldOf(r).value.0
    ensures AreFields([p, q, r]) == true
    ensures Fields([p, q, r]) == map[
      FieldOf(p).value.0 := FieldOf(p).value.1, FieldOf(q).value.0 := FieldOf(q).value.1,
      FieldOf(r).value.0 := FieldOf(r).value.1]
  {
    TwoFields(p, q);
    NextField([p, q], r);
    assert [p, q] + [r] == [p, q, r];
  }

  lemma NamesDiffer()
    ensures "factory" != "collector" && "factory" != "init_code_hash" && "collector" != "init_code_hash"
  {
    assert "factory"[0] == 'f' && "collector"[0] == 'c' && "init_code_hash"[0] == 'i';
  }

  lemma PartIsField(part: string, name: string, bytes: seq<byte>)
    requires part == name + "=" && Free(name, '=') && Trimmed(name) && name != "" && bytes != []
    ensures FieldOf(part + Canonical(bytes)) == Some((name, Canonical(bytes)))
  {
    CanonicalIsTrimmed(bytes);
    FieldReads(name, Canonical(bytes));
  }

  lemma NamesAreTrimmed()
    ensures Free("factory", '=') && Free("collector", '=') && Free("init_code_hash", '=')
    ensures Trimmed("factory") && Trimmed("collector") && Trimmed("init_code_hash")
  {
  }

  lemma PartsAreFields(f: seq<byte>, c: seq<byte>, h: seq<byte>)
    requires f != [] && c != [] && h != []
    ensures FieldOf("factory=" + Canonical(f)) == Some(("factory", Canonical(f)))
    ensures FieldOf("collector=" + Canonical(c)) == Some(("collector", Canonical(c)))
    ensures FieldOf("init_code_hash=" + Canonical(h)) == Some(("init_code_hash", Canonical(h)))
  {
    NamesAreTrimmed();
    PartIsField("factory=", "factory", f);
    PartIsField("collector=", "collector", c);
    PartIsField("init_code_hash=", "init_code_hash", h);
  }

  lemma PartsRead(r: Ref)
    requires Normalized(r)
    ensures ParseParts(PartsOf(r)) == Success(r)
  {
    var f: seq<byte>, c: seq<byte>, h: seq<byte> :| Stands(r, f, c, h);
    PartsAreFields(f, c, h);
    NamesDiffer();
    ThreeFields("factory=" + r.factory, "collector=" + r.collector, "init_code_hash=" + r.initCodeHash);
    CanonicalNormalizes(f);
    CanonicalNormalizes(c);
    CanonicalNormalizes(h);
  }

  lemma PartHasNoSemicolon(name: string, bytes: seq<byte>)
    requires Free(name, ';')
    ensures Free(name + Canonical(bytes), ';')
  {
    CanonicalIsTrimmed(bytes);
  }

  lemma LabelsHaveNoSemicolon()
    ensures Free("factory=", ';') && Free("collector=", ';') && Free("init_code_hash=", ';')
  {
  }

  lemma PartsHaveNoSemicolon(r: Ref)
    requires Normalized(r)
    ensures forall i | 0 <= i < 3 :: Free(PartsOf(r)[i], ';')
  {
    var f: seq<byte>, c: seq<byte>, h: seq<byte> :| Stands(r, f, c, h);
    LabelsHaveNoSemicolon();
    PartHasNoSemicolon("factory=", f);
    PartHasNoSemicolon("collector=", c);
    PartHasNoSemicolon("init_code_hash=", h);
  }

  lemma TrimmedConcat(a: string, b: string)
    requires a != "" && b != "" && !IsSpace(a[0]) && !IsSpace(b[|b| - 1])
    ensures Trimmed(a + b) && a + b != ""
  {
  }

  lemma PrintIsTrimmed(r: Ref)
    requires Normalized(r)
    ensures Trimmed(Print(r)) && Print(r) != ""
  {
    var f: seq<byte>, c: seq<byte>, h: seq<byte> :| Stands(r, f, c, h);
    CanonicalIsTrimmed(h);
    assert HEADER[0] == 'c';
    TrimmedConcat("init_code_hash=", r.initCodeHash);
    var front := PartsOf(r)[0] + ";" + PartsOf(r)[1] + ";";
    assert Payload(r) == front + PartsOf(r)[2];
    assert Payload(r)[|Payload(r)| - 1] == PartsOf(r)[2][|PartsOf(r)[2]| - 1];
    TrimmedConcat(HEADER, Payload(r));
  }

  lemma SplitThree(p: string, q: string, r: string)
    requires Free(p, ';') && Free(q, ';') && Free(r, ';')
    ensures Split(p + ";" + q + ";" + r, ';') == [p, q, r]
  {
    SplitFree(p, ';');
    SplitFree(q, ';');
    SplitFree(r, ';');
    SplitConcat(p, q, ';');
    SplitConcat(p + ";" + q, r, ';');
  }

  lemma HeaderIsDropped(payload: string)
    ensures HEADER <= HEADER + payload && (HEADER + payload)[|HEADER|..] == payload
  {
  }

  lemma PrintedParses(r: Ref)
    requires Normalized(r)
    ensures ParseRef(Print(r)) == Success(r)
  {
    PartsHaveNoSemicolon(r);
    PrintIsTrimmed(r);
    TrimOfTrimmed(Print(r));
    HeaderIsDropped(Payload(r));
    SplitThree(PartsOf(r)[0], PartsOf(r)[1], PartsOf(r)[2]);
    PartsRead(r);
  }

  lemma NormalFormsStand(factory: string, collector: string, initCodeHash: string)
    requires NormalizeFixed(factory, 20).Success? && NormalizeFixed(collector, 20).Success?
    requires NormalizeFixed(initCodeHash, 32).Success?
    ensures Normalized(Ref(NormalizeFixed(factory, 20).value.0, NormalizeFixed(collector, 20).value.0,
                           NormalizeFixed(initCodeHash, 32).value.0))
  {
    NormalFormIsCanonical(factory, 20);
    NormalFormIsCanonical(collector, 20);
    NormalFormIsCanonical(initCodeHash, 32);
    var f, c, h := NormalizeFixed(factory, 20).value, NormalizeFixed(collector, 20).value,
      NormalizeFixed(initCodeHash, 32).value;
    assert Stands(Ref(f.0, c.0, h.0), f.1, c.1, h.1);
  }

  // The text of a reference, name by name, and where each value comes from.
  lemma BuiltTextNamesItsFields(factory: string, collector: string, initCodeHash: string)
    requires Build(factory, collector, initCodeHash).Success?
    ensures NormalizeFixed(factory, 20).Success? && NormalizeFixed(collector, 20).Success?
      && NormalizeFixed(initCodeHash, 32).Success?
    ensures var text := Build(factory, collector, initCodeHash).value;
      && HEADER <= text && HEADER == "create2.v1:"
      && Split(text[|HEADER|..], ';') == [
           "factory=" + NormalizeFixed(factory, 20).value.0,
           "collector=" + NormalizeFixed(collector, 20).value.0,
           "init_code_hash=" + NormalizeFixed(initCodeHash, 32).value.0]
  {
    NormalFormsStand(factory, collector, initCodeHash);
    var r := Ref(NormalizeFixed(factory, 20).value.0, NormalizeFixed(collector, 20).value.0,
                 NormalizeFixed(initCodeHash, 32).value.0);
    PartsHaveNoSemicolon(r);
    HeaderIsDropped(Payload(r));
    SplitThree(PartsOf(r)[0], PartsOf(r)[1], PartsOf(r)[2]);
  }

  // Three parts are read by their names, in whatever order they stand: each component of the
  // reference is the normal form of the value with its own name.
  lemma PartsAreReadByName(parts: seq<string>, i: nat, j: nat, k: nat)
    requires |parts| == 3 && {i, j, k} == {0, 1, 2} && AreFields(parts)
    requires FieldOf(parts[i]).value.0 == "factory" && FieldOf(parts[j]).value.0 == "collector"
    requires FieldOf(parts[k]).value.0 == "init_code_hash"
    ensures var f, c, h := NormalizeFixed(FieldOf(parts[i]).value.1, 20), NormalizeFixed(FieldOf(parts[j]).value.1, 20),
              NormalizeFixed(FieldOf(parts[k]).value.1, 32);
      var r := ParseParts(parts);
      && (r.Success? <==> f.Success? && c.Success? && h.Success?)
      && (r.Success? ==>
           r.value.factory == f.value.0 && r.value.collector == c.value.0 && r.value.initCodeHash == h.value.0)
  {
    FieldHeld(parts, i);
    FieldHeld(parts, j);
    FieldHeld(parts, k);
  }

  // White space around a text is not read.
  lemma SpacingIsIrrelevant(a: string, raw: string, b: string)
    requires AllSpace(a) && AllSpace(b)
    ensures ParseRef(a + raw + b) == ParseRef(raw)
  {
    TrimDropsSpace(a, raw, b);
  }

  // Reading a reference that was built gives back the normal forms of what it was built from.
  lemma ParseUndoesBuild(factory: string, collector: string, initCodeHash: string)
    requires Build(factory, collector, initCodeHash).Success?
    ensures ParseRef(Build(factory, collector, initCodeHash).value) == Success(Ref(
              NormalizeFixed(factory, 20).value.0, NormalizeFixed(collector, 20).value.0,
              NormalizeFixed(initCodeHash, 32).value.0))
  {
    NormalFormsStand(factory, collector, initCodeHash);
    PrintedParses(Ref(NormalizeFixed(factory, 20).value.0, NormalizeFixed(collector, 20).value.0,
                      NormalizeFixed(initCodeHash, 32).value.0));
  }

  // What was read can be built again: the result is the one canonical text of the triple,
  // whatever the order, the case and the spacing of the text that was read.
  lemma BuildUndoesParse(raw: string)
    requires ParseRef(raw).Success?
    ensures var r := ParseRef(raw).value;
      && Build(r.factory, r.collector, r.initCodeHash) == Success(Print(r))
      && ParseRef(Print(r)) == Success(r)
  {
    var values := Fields(Split(Trim(raw)[|HEADER|..], ';'));
    var factory, collector, hash := ValueAt(values, "factory"), ValueAt(values, "collector"),
      ValueAt(values, "init_code_hash");
    NormalFormsStand(factory, collector, hash);
    NormalFormIsCanonical(factory, 20);
    NormalFormIsCanonical(collector, 20);
    NormalFormIsCanonical(hash, 32);
    PrintedParses(ParseRef(raw).value);
  }

  // Different triples never share a reference: equal references mean equal bytes.
  lemma BuildIsInjective(f1: string, c1: string, h1: string, f2: string, c2: string, h2: string)
    requires Build(f1, c1, h1).Success? && Build(f1, c1, h1) == Build(f2, c2, h2)
    ensures NormalizeFixed(f1, 20) == NormalizeFixed(f2, 20)
    ensures NormalizeFixed(c1, 20) == NormalizeFixed(c2, 20)
    ensures NormalizeFixed(h1, 32) == NormalizeFixed(h2, 32)
  {
    ParseUndoesBuild(f1, c1, h1);
    ParseUndoesBuild(f2, c2, h2);
    SameNormalForm(f1, f2, 20);
    SameNormalForm(c1, c2, 20);
    SameNormalForm(h1, h2, 32);
  }

  lemma SameNormalForm(a: string, b: string, size: nat)
    requires NormalizeFixed(a, size).Success? && NormalizeFixed(b, size).Success?
    requires NormalizeFixed(a, size).value.0 == NormalizeFixed(b, size).value.0
    ensures NormalizeFixed(a, size) == NormalizeFixed(b, size)
  {
    NormalFormIsCanonical(a, size);
    NormalFormIsCanonical(b, size);
    CanonicalIsInjective(NormalizeFixed(a, size).value.1, NormalizeFixed(b, size).value.1);
  }

  /******* The order of the fields *******/

  predicate AreThreeFields(p: string, q: string, r: string) {
    && FieldOf(p).Some? && FieldOf(q).Some? && FieldOf(r).Some?
    && FieldOf(p).value.0 != FieldOf(q).value.0
    && FieldOf(p).value.0 != FieldOf(r).value.0 && FieldOf(q).value.0 != FieldOf(r).value.0
  }

  function ParseThree(p: string, q: string, r: string): Result<Ref, Error> {
    if !AreThreeFields(p, q, r) then Failure(FormatInvalid)
    else FromFields(map[
      FieldOf(p).value.0 := FieldOf(p).value.1, FieldOf(q).value.0 := FieldOf(q).value.1,
      FieldOf(r).value.0 := FieldOf(r).value.1])
  }

  lemma PartsByThree(parts: seq<string>)
    requires |parts| == 3
    ensures ParseParts(parts) == ParseThree(parts[0], parts[1], parts[2])
  {
    assert parts == [parts[0], parts[1], parts[2]];
    if AreThreeFields(parts[0], parts[1], parts[2]) {
      ThreeFields(parts[0], parts[1], parts[2]);
    }
  }

  lemma SwapEntries<K, V>(k: K, v: V, l: K, w: V, m: K, x: V)
    requires k != l && k != m && l != m
    ensures map[k := v, l := w, m := x] == map[l := w, k := v, m := x]
    ensures map[k := v, l := w, m := x] == map[k := v, m := x, l := w]
  {
  }

  lemma SwapFields(p: string, q: string, r: string)
    ensures ParseThree(p, q, r) == ParseThree(q, p, r) == ParseThree(p, r, q)
  {
    if AreThreeFields(p, q, r) {
      var a, b, c := FieldOf(p).value, FieldOf(q).value, FieldOf(r).value;
      SwapEntries(a.0, a.1, b.0, b.1, c.0, c.1);
    }
  }

  // All the ways to reorder three parts come from swapping neighbours.
  lemma ReorderFields(p: string, q: string, r: string)
    ensures ParseThree(p, q, r) == ParseThree(p, r, q) == ParseThree(q, p, r)
    ensures ParseThree(p, q, r) == ParseThree(q, r, p) == ParseThree(r, p, q) == ParseThree(r, q, p)
  {
    SwapFields(p, q, r);
    SwapFields(q, p, r);
    SwapFields(p, r, q);
    SwapFields(q, r, p);
  }

  lemma TwoPermuted<T>(a: T, b: T, x: T, y: T)
    requires multiset{a, b} == multiset{x, y}
    ensures (x == a && y == b) || (x == b && y == a)
  {
    assert x in multiset{a, b};
    if x == a {
      assert multiset{b} == multiset{a, b} - multiset{a} == multiset{x, y} - multiset{x} == multiset{y};
      assert y in multiset{b};
    } else {
      assert multiset{a} == multiset{a, b} - multiset{b} == multiset{x, y} - multiset{x} == multiset{y};
      assert y in multiset{a};
    }
  }

  lemma TakeOne<T>(a: T, b: T, c: T, y: T, z: T)
    requires multiset{a, b, c} == multiset{a, y, z}
    ensures multiset{b, c} == multiset{y, z}
  {
    assert multiset{b, c} == multiset{a, b, c} - multiset{a};
    assert multiset{y, z} == multiset{a, y, z} - multiset{a};
  }

  lemma ThreePermuted<T>(a: T, b: T, c: T, x: T, y: T, z: T)
    requires multiset{a, b, c} == multiset{x, y, z}
    ensures || (x == a && ((y == b && z == c) || (y == c && z == b)))
            || (x == b && ((y == a && z == c) || (y == c && z == a)))
            || (x == c && ((y == a && z == b) || (y == b && z == a)))
  {
    assert x in multiset{a, b, c};
    if x == a {
      TakeOne(a, b, c, y, z);
      TwoPermuted(b, c, y, z);
    } else if x == b {
      assert multiset{a, b, c} == multiset{b, a, c};
      TakeOne(b, a, c, y, z);
      TwoPermuted(a, c, y, z);
    } else {
      assert multiset{a, b, c} == multiset{c, a, b};
      TakeOne(c, a, b, y, z);
      TwoPermuted(a, b, y, z);
    }
  }

  lemma ThreeAsMultiset(parts: seq<string>)
    requires |parts| == 3
    ensures multiset(parts) == multiset{parts[0], parts[1], parts[2]}
  {
    assert parts == [parts[0], parts[1], parts[2]];
  }

  lemma ReorderedPartsAgree(a: seq<string>, b: seq<string>)
    requires multiset(a) == multiset(b)
    ensures ParseParts(a) == ParseParts(b)
  {
    assert |a| == |multiset(a)| == |multiset(b)| == |b|;
    if |a| == 3 {
      ThreeAsMultiset(a);
      ThreeAsMultiset(b);
      ThreePermuted(a[0], a[1], a[2], b[0], b[1], b[2]);
      ReorderFields(a[0], a[1], a[2]);
      PartsByThree(a);
      PartsByThree(b);
    }
  }

  // Two texts with the same fields in another order read the same, for better or worse.
  lemma FieldOrderIsIrrelevant(raw: string, other: string, payload: string, reordered: string)
    requires Trim(raw) == HEADER + payload && Trim(other) == HEADER + reordered
    requires multiset(Split(payload, ';')) == multiset(Split(reordered, ';'))
    ensures ParseRef(raw) == ParseRef(other)
  {
    HeaderIsDropped(payload);
    HeaderIsDropped(reordered);
    ReorderedPartsAgree(Split(payload, ';'), Split(reordered, ';'));
  }
}
