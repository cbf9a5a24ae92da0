/**
 * The line builder of the SLURM exporter: KEY=VALUE lines for the qubits in
 * ascending index order, stopping at the first index at or above the
 * optional cutoff, followed by the snapshot's timestamp line. Values are
 * opaque text; writing the file is not modelled, only the text it would hold.
 */
module Exporter {
  import opened Common
  import opened Observables

  /* ---------- text helpers ---------- */

  function Digit(d: nat): (c: char)
    requires d < 10
    ensures '0' <= c <= '9'
  {
    "0123456789"[d]
  }

  /** Decimal digits of `n`, most significant first. */
  function NatToString(n: nat): (s: string)
    ensures |s| >= 1 && forall i :: 0 <= i < |s| ==> '0' <= s[i] <= '9'
    decreases n
  {
    if n < 10 then [Digit(n)] else NatToString(n / 10) + [Digit(n % 10)]
  }

  /** Decimal text of an integer, with a leading '-' when negative. */
  function IntToString(i: int): (s: string)
    ensures '=' !in s
  {
    if i < 0 then "-" + NatToString(-i) else NatToString(i)
  }

  function UpperChar(c: char): char
  {
    if 'a' <= c <= 'z' then (c as int - 32) as char else c
  }

  /** Upper-casing of ASCII letters; every other character is kept. */
  function Upper(s: string): (u: string)
    ensures |u| == |s| && forall i :: 0 <= i < |s| ==> u[i] == UpperChar(s[i])
  {
    seq(|s|, i requires 0 <= i < |s| => UpperChar(s[i]))
  }

  /* ---------- lines, kept structured until they are written ---------- */

  /** The key of a line: a qubit's field, or the snapshot's timestamp. */
  datatype EnvKey = QubitKey(idx: int, name: string) | LastUpdatedKey

  /** A `KEY=VALUE` line, as its key and the text of its value. */
  datatype EnvLine = EnvLine(key: EnvKey, value: string)

  const TimestampKey: string := "QPU_LAST_UPDATED"

  /** `Q<index>_<name>`, or `QPU_LAST_UPDATED`: no '=' unless the field name holds one. */
  function KeyText(k: EnvKey): (t: string)
    ensures k.LastUpdatedKey? || '=' !in k.name ==> '=' !in t
    ensures k.QubitKey? ==> |t| > |k.name| && t[0] == 'Q' && t[|t| - |k.name|..] == k.name
  {
    match k
    case QubitKey(idx, name) => "Q" + IntToString(idx) + "_" + name
    case LastUpdatedKey => TimestampKey
  }

  /** `KEY=VALUE`. */
  function LineText(l: EnvLine): string
  {
    KeyText(l.key) + "=" + l.value
  }

  /** Where the first '=' of `s` is, or `|s|` when it holds none. */
  function FirstEquals(s: string): (i: nat)
    ensures i <= |s| && '=' !in s[..i] && (i < |s| ==> s[i] == '=')
  {
    if s == [] || s[0] == '=' then 0
    else
      assert s[..1 + FirstEquals(s[1..])] == [s[0]] + s[1..][..FirstEquals(s[1..])];
      1 + FirstEquals(s[1..])
  }

  lemma {:induction false} FirstEqualsAfter(a: string, b: string)
    requires '=' !in a
    ensures FirstEquals(a + b) == |a| + FirstEquals(b)
  {
    if a != [] {
      assert a[0] in a && (a + b)[0] == a[0] && (a + b)[1..] == a[1..] + b;
      assert forall c :: c in a[1..] ==> c in a;
      FirstEqualsAfter(a[1..], b);
    } else {
      assert a + b == b;
    }
  }

  /**
   * A reader that splits a line at its first '=' gets back the key's text
   * and the value, whatever the value holds, as long as the field name
   * holds no '='.
   */
  lemma LineTextSplits(l: EnvLine)
    requires Splittable(l)
    ensures var t := LineText(l); var i := FirstEquals(t);
      i < |t| && t[..i] == KeyText(l.key) && t[i + 1..] == l.value
  {
    var k, rest := KeyText(l.key), ['='] + l.value;
    assert LineText(l) == k + ['='] + l.value == k + rest;
    assert rest[0] == '=';
    assert FirstEquals(rest) == 0;
    FirstEqualsAfter(k, rest);
    SplitAround(k, '=', l.value);
  }

  lemma SplitAround<T>(a: seq<T>, x: T, b: seq<T>)
    ensures (a + [x] + b)[..|a|] == a && (a + [x] + b)[|a| + 1..] == b
  {
  }

  /** The text of each line, in order. */
  function Texts(lines: seq<EnvLine>): (ts: seq<string>)
    ensures |ts| == |lines| && forall i :: 0 <= i < |lines| ==> ts[i] == LineText(lines[i])
  {
    seq(|lines|, i requires 0 <= i < |lines| => LineText(lines[i]))
  }

  /* ---------- what one qubit contributes ---------- */

  /** Keys of the summary subset, in emission order. */
  const SubsetKeys: seq<string> := ["FREQ", "T1", "T2", "F1Q", "F2Q", "DEPTH"]

  /** For each summary key, the position of the field it reports in `FieldNames`. */
  const SubsetFields: seq<nat> := [3, 0, 1, 4, 5, 11]

  /** Lines per qubit: every field, or the summary subset. */
  function PerQubit(includeAll: bool): nat
  {
    if includeAll then FieldCount else |SubsetKeys|
  }

  /** One line per field, key the upper-cased field name, in declaration order. */
  function AllFieldLines(idx: int, q: QubitObservable): (ls: seq<EnvLine>)
    ensures |ls| == FieldCount
    ensures forall f :: 0 <= f < FieldCount ==> ls[f].key == QubitKey(idx, Upper(FieldNames()[f]))
    ensures forall f :: 0 <= f < FieldCount ==> ls[f].value == FieldValues(q)[f]
  {
    seq(FieldCount, f requires 0 <= f < FieldCount => EnvLine(QubitKey(idx, Upper(FieldNames()[f])), FieldValues(q)[f]))
  }

  /** The summary lines: frequency, T1, T2, 1q and 2q gate fidelity, maximum depth. */
  function SubsetLines(idx: int, q: QubitObservable): (ls: seq<EnvLine>)
    ensures |ls| == |SubsetKeys| && forall f :: 0 <= f < |SubsetKeys| ==> ls[f].key == QubitKey(idx, SubsetKeys[f])
  {
    [EnvLine(QubitKey(idx, "FREQ"), q.frequency), EnvLine(QubitKey(idx, "T1"), q.t1),
     EnvLine(QubitKey(idx, "T2"), q.t2), EnvLine(QubitKey(idx, "F1Q"), q.gateFidelity1q),
     EnvLine(QubitKey(idx, "F2Q"), q.gateFidelity2q), EnvLine(QubitKey(idx, "DEPTH"), q.maxCircuitDepth)]
  }

  /** A qubit's block: as many lines as the mode asks for. */
  function QubitLines(idx: int, q: QubitObservable, includeAll: bool): (ls: seq<EnvLine>)
    ensures |ls| == PerQubit(includeAll)
  {
    if includeAll then AllFieldLines(idx, q) else SubsetLines(idx, q)
  }

  /* ---------- which qubits, in which order ---------- */

  ghost predicate Increasing(s: seq<int>)
  {
    forall i, j :: 0 <= i < j < |s| ==> s[i] < s[j]
  }

  /** `max_qubits is None or idx < max_qubits`. */
  predicate Below(idx: int, cutoff: Option<int>)
  {
    cutoff.None? || idx < cutoff.value
  }

  ghost function Min(s: set<int>): (m: int)
    requires s != {}
    ensures m in s && forall x :: x in s ==> m <= x
  {
    assert exists x :: x in s by {
      if forall x :: x !in s {
        assert false;
      }
    }
    var x :| x in s;
    if s == {x} then x
    else
      var rest := Min(s - {x});
      assert forall y :: y in s ==> y == x || y in s - {x};
      if x < rest then x else rest
  }

  /** The indices of `s` in ascending order, as `sorted` lists them. */
  ghost function SortedKeys(s: set<int>): seq<int>
    decreases s
  {
    if s == {} then []
    else
      var m := Min(s);
      [m] + SortedKeys(s - {m})
  }

  /** Sorting lists exactly the indices of the set, each once. */
  lemma {:induction false} SortedKeysMembers(s: set<int>)
    ensures |SortedKeys(s)| == |s|
    ensures forall k :: k in SortedKeys(s) <==> k in s
    decreases s
  {
    if s != {} {
      var m := Min(s);
      SortedKeysMembers(s - {m});
      assert SortedKeys(s) == [m] + SortedKeys(s - {m});
    }
  }

  /** Sorting lists the indices in strictly ascending order. */
  lemma {:induction false} SortedKeysIncreasing(s: set<int>)
    ensures Increasing(SortedKeys(s))
    decreases s
  {
    if s != {} {
      var m := Min(s);
      var rest := SortedKeys(s - {m});
      SortedKeysIncreasing(s - {m});
      SortedKeysMembers(s - {m});
      assert SortedKeys(s) == [m] + rest;
      IncreasingPrepend(m, rest);
    }
  }

  /** Putting a key below all others in front keeps the order increasing. */
  lemma IncreasingPrepend(m: int, rest: seq<int>)
    requires Increasing(rest)
    requires forall x :: x in rest ==> m < x
    ensures Increasing([m] + rest)
  {
    var r := [m] + rest;
    forall i, j | 0 <= i < j < |r| ensures r[i] < r[j] {
      assert r[j] == rest[j - 1] && r[j] in rest;
      if i > 0 {
        assert r[i] == rest[i - 1];
      }
    }
  }

  /** The longest prefix of `keys` below the cutoff: a loop that stops at the first key that is not. */
  function TakeBelow(keys: seq<int>, cutoff: Option<int>): (r: seq<int>)
    ensures |r| <= |keys| && r == keys[..|r|]
    ensures forall k :: k in r ==> k in keys && Below(k, cutoff)
  {
    if keys == [] || !Below(keys[0], cutoff) then []
    else [keys[0]] + TakeBelow(keys[1..], cutoff)
  }

  /** The qubits the exporter emits, in emission order. */
  ghost function Emitted(obs: QPUObservables, cutoff: Option<int>): (e: seq<int>)
    ensures forall k :: k in e ==> k in obs.qubits
    ensures |e| <= |SortedKeys(obs.qubits.Keys)| && e == SortedKeys(obs.qubits.Keys)[..|e|]
  {
    SortedKeysMembers(obs.qubits.Keys);
    TakeBelow(SortedKeys(obs.qubits.Keys), cutoff)
  }

  /* ---------- the lines ---------- */

  /** Blocks of lines, one after the other. */
  function Flatten(blocks: seq<seq<EnvLine>>): seq<EnvLine>
    decreases |blocks|
  {
    if blocks == [] then [] else Flatten(blocks[..|blocks| - 1]) + blocks[|blocks| - 1]
  }

  /** Each given qubit's block of lines, in list order. */
  ghost function Blocks(obs: QPUObservables, includeAll: bool, keys: seq<int>): (bs: seq<seq<EnvLine>>)
    requires forall k :: k in keys ==> k in obs.qubits
    ensures |bs| == |keys|
    ensures forall j :: 0 <= j < |keys| ==> bs[j] == QubitLines(keys[j], obs.qubits[keys[j]], includeAll)
  {
    seq(|keys|, j requires 0 <= j < |keys| => QubitLines(keys[j], obs.qubits[keys[j]], includeAll))
  }

  /** The lines of the first `n` of the given qubits, one block per qubit, in list order. */
  ghost function LinesUpTo(obs: QPUObservables, includeAll: bool, keys: seq<int>, n: nat): seq<EnvLine>
    requires n <= |keys| && forall k :: k in keys ==> k in obs.qubits
  {
    if n == 0 then []
    else LinesUpTo(obs, includeAll, keys, n - 1) + QubitLines(keys[n - 1], obs.qubits[keys[n - 1]], includeAll)
  }

  /** Every line the exporter builds: the emitted qubits' blocks, then the timestamp line. */
  ghost function ExportedLines(obs: QPUObservables, includeAll: bool, maxQubits: Option<int>): seq<EnvLine>
  {
    SortedKeysMembers(obs.qubits.Keys);
    var keys := SortedKeys(obs.qubits.Keys);
    LinesUpTo(obs, includeAll, keys, |Emitted(obs, maxQubits)|) + [EnvLine(LastUpdatedKey, obs.lastUpdated)]
  }

  /** `"\n".join(lines)`. */
  function Join(lines: seq<string>): string
  {
    if lines == [] then ""
    else if |lines| == 1 then lines[0]
    else lines[0] + "\n" + Join(lines[1..])
  }

  /** The text written to the env file: never empty, and it ends with a newline. */
  function EnvText(lines: seq<string>): (t: string)
    ensures |t| >= 1 && t[|t| - 1] == '\n'
  {
    Join(lines) + "\n"
  }

  /** Each line followed by its own newline. */
  function Terminated(lines: seq<string>): string
  {
    if lines == [] then "" else lines[0] + "\n" + Terminated(lines[1..])
  }

  /* ---------- the builder ---------- */

  /**
   * Build the lines: visit the qubits in ascending index order, stop at the
   * first index at or above `maxQubits`, emit each visited qubit's block,
   * and close with the timestamp line.
   */
  method ExportLines(obs: QPUObservables, includeAll: bool, maxQubits: Option<int>) returns (lines: seq<EnvLine>)
    ensures lines == ExportedLines(obs, includeAll, maxQubits)
  {
    var keys := Sorted(obs.qubits.Keys);
    SortedKeysMembers(obs.qubits.Keys);
    var i;
    lines, i := EmitQubits(obs, includeAll, maxQubits, keys);
    EmittedCount(keys, i, maxQubits);
    lines := lines + [EnvLine(LastUpdatedKey, obs.lastUpdated)];
  }

  /** Where the loop stops is how many keys the prefix filter keeps. */
  lemma EmittedCount(keys: seq<int>, i: nat, cutoff: Option<int>)
    requires i <= |keys| && forall j :: 0 <= j < i ==> Below(keys[j], cutoff)
    requires i < |keys| ==> !Below(keys[i], cutoff)
    ensures |TakeBelow(keys, cutoff)| == i
  {
    assert keys == keys[..i] + keys[i..];
    assert forall k :: k in keys[..i] ==> Below(k, cutoff);
    TakeBelowStops(keys[..i], keys[i..], cutoff);
  }

  /**
   * The loop over the sorted indices: emit each qubit's block until the
   * first index that is not below the cutoff, and report where it stopped.
   */
  method EmitQubits(obs: QPUObservables, includeAll: bool, maxQubits: Option<int>, keys: seq<int>)
    returns (lines: seq<EnvLine>, i: nat)
    requires forall k :: k in keys ==> k in obs.qubits
    ensures i <= |keys| && lines == LinesUpTo(obs, includeAll, keys, i)
    ensures forall j :: 0 <= j < i ==> Below(keys[j], maxQubits)
    ensures i < |keys| ==> !Below(keys[i], maxQubits)
  {
    lines := [];
    i := 0;
    while i < |keys|
      invariant 0 <= i <= |keys|
      invariant forall j :: 0 <= j < i ==> Below(keys[j], maxQubits)
      invariant lines == LinesUpTo(obs, includeAll, keys, i)
    {
      var qidx := keys[i];
      if maxQubits.Some? && qidx >= maxQubits.value {
        break;
      }
      lines := AppendQubitLines(lines, qidx, obs.qubits[qidx], includeAll);
      i := i + 1;
    }
  }

  /** The loop body for one qubit: every field in declaration order, or the summary subset. */
  method AppendQubitLines(lines: seq<EnvLine>, qidx: int, qobs: QubitObservable, includeAll: bool)
    returns (out: seq<EnvLine>)
    ensures out == lines + QubitLines(qidx, qobs, includeAll)
  {
    out := lines;
    ghost var block := QubitLines(qidx, qobs, includeAll);
    if includeAll {
      var names := FieldNames();
      var values := FieldValues(qobs);
      var f := 0;
      while f < |names|
        invariant 0 <= f <= |names|
        invariant out == lines + block[..f]
      {
        out := out + [EnvLine(QubitKey(qidx, Upper(names[f])), values[f])];
        assert block[..f + 1] == block[..f] + [block[f]];
        f := f + 1;
      }
      assert block[..f] == block;
    } else {
      out := out + [EnvLine(QubitKey(qidx, "FREQ"), qobs.frequency)];
      out := out + [EnvLine(QubitKey(qidx, "T1"), qobs.t1)];
      out := out + [EnvLine(QubitKey(qidx, "T2"), qobs.t2)];
      out := out + [EnvLine(QubitKey(qidx, "F1Q"), qobs.gateFidelity1q)];
      out := out + [EnvLine(QubitKey(qidx, "F2Q"), qobs.gateFidelity2q)];
      out := out + [EnvLine(QubitKey(qidx, "DEPTH"), qobs.maxCircuitDepth)];
    }
  }

  /** `sorted` over a set of indices: repeatedly take out the least one. */
  method Sorted(s: set<int>) returns (r: seq<int>)
    ensures r == SortedKeys(s)
  {
    r := [];
    var remaining := s;
    while remaining != {}
      invariant SortedKeys(s) == r + SortedKeys(remaining)
      decreases remaining
    {
      ghost var least := Min(remaining);
      var m :| m in remaining && forall j :: j in remaining ==> m <= j;
      assert m == least;
      SortedKeysStep(remaining);
      r := r + [m];
      remaining := remaining - {m};
    }
  }

  /** Sorting a non-empty set lists its least element first. */
  lemma SortedKeysStep(s: set<int>)
    requires s != {}
    ensures SortedKeys(s) == [Min(s)] + SortedKeys(s - {Min(s)})
  {
  }

  /* ---------- properties ---------- */

  /**
   * Keys all below the cutoff, then a first key that is not (or nothing):
   * the prefix filter keeps exactly the former.
   */
  lemma {:induction false} TakeBelowStops(a: seq<int>, b: seq<int>, cutoff: Option<int>)
    requires forall k :: k in a ==> Below(k, cutoff)
    requires b != [] ==> !Below(b[0], cutoff)
    ensures TakeBelow(a + b, cutoff) == a
  {
    if a == [] {
      assert a + b == b;
    } else {
      assert (a + b)[0] == a[0] && (a + b)[1..] == a[1..] + b;
      TakeBelowStops(a[1..], b, cutoff);
    }
  }

  /** On ascending keys, the prefix filter keeps exactly the keys below the cutoff. */
  lemma {:induction false} TakeBelowFilters(keys: seq<int>, cutoff: Option<int>)
    requires Increasing(keys)
    ensures forall k :: k in TakeBelow(keys, cutoff) <==> k in keys && Below(k, cutoff)
  {
    if keys != [] {
      if Below(keys[0], cutoff) {
        assert Increasing(keys[1..]);
        TakeBelowFilters(keys[1..], cutoff);
        assert keys == [keys[0]] + keys[1..];
      } else {
        forall k | k in keys ensures !Below(k, cutoff) {
          var i :| 0 <= i < |keys| && keys[i] == k;
          assert i == 0 || keys[0] < keys[i];
        }
      }
    }
  }

  /**
   * The emitted qubits are in strictly ascending index order, and they are
   * exactly the qubits whose index is below `maxQubits` (all of them when
   * there is no cutoff).
   */
  lemma EmittedQubits(obs: QPUObservables, maxQubits: Option<int>)
    ensures Increasing(Emitted(obs, maxQubits))
    ensures forall k :: k in Emitted(obs, maxQubits) <==> k in obs.qubits && Below(k, maxQubits)
  {
    var sorted := SortedKeys(obs.qubits.Keys);
    SortedKeysIncreasing(obs.qubits.Keys);
    SortedKeysMembers(obs.qubits.Keys);
    TakeBelowFilters(sorted, maxQubits);
    var e := Emitted(obs, maxQubits);
    assert e == sorted[..|e|];
  }

  /** Where block `j` starts when every block has `per` lines. */
  function Offset(per: nat, j: nat): nat
  {
    if j == 0 then 0 else Offset(per, j - 1) + per
  }

  lemma {:induction false} OffsetIsProduct(per: nat, j: nat)
    ensures Offset(per, j) == per * j
  {
    if j > 0 {
      OffsetIsProduct(per, j - 1);
    }
  }

  /** Block `j` of `n` ends within the first `n` blocks. */
  lemma {:induction false} OffsetGrows(per: nat, j: nat, n: nat)
    requires j < n
    ensures Offset(per, j) + per <= Offset(per, n)
    decreases n
  {
    if j < n - 1 {
      OffsetGrows(per, j, n - 1);
    }
  }

  /** Blocks of `per` lines each sit one after another: block `j` starts at `Offset(per, j)`. */
  lemma {:induction false} FlattenBlocks(blocks: seq<seq<EnvLine>>, per: nat)
    requires forall j :: 0 <= j < |blocks| ==> |blocks[j]| == per
    ensures |Flatten(blocks)| == Offset(per, |blocks|)
    ensures forall j :: 0 <= j < |blocks| ==>
      Offset(per, j) + per <= |Flatten(blocks)| && Flatten(blocks)[Offset(per, j) .. Offset(per, j) + per] == blocks[j]
    decreases |blocks|
  {
    if blocks != [] {
      var n := |blocks| - 1;
      var init := blocks[..n];
      FlattenBlocks(init, per);
      var ls := Flatten(blocks);
      var front := Flatten(init);
      assert ls == front + blocks[n];
      forall j | 0 <= j < |blocks|
        ensures Offset(per, j) + per <= |ls| && ls[Offset(per, j) .. Offset(per, j) + per] == blocks[j]
      {
        if j < n {
          OffsetGrows(per, j, n);
          assert init[j] == blocks[j];
          assert ls[Offset(per, j) .. Offset(per, j) + per] == front[Offset(per, j) .. Offset(per, j) + per];
        } else {
          assert ls[Offset(per, j) ..] == blocks[n];
        }
      }
    }
  }

  /** The lines of the first `n` qubits are their blocks, flattened. */
  lemma {:induction false} LinesUpToIsFlatten(obs: QPUObservables, includeAll: bool, keys: seq<int>, n: nat)
    requires n <= |keys| && forall k :: k in keys ==> k in obs.qubits
    ensures LinesUpTo(obs, includeAll, keys, n) == Flatten(Blocks(obs, includeAll, keys)[..n])
  {
    var bs := Blocks(obs, includeAll, keys);
    if n == 0 {
      assert bs[..0] == [];
    } else {
      LinesUpToIsFlatten(obs, includeAll, keys, n - 1);
      assert bs[..n][..n - 1] == bs[..n - 1];
    }
  }

  /** The exported lines are the emitted qubits' blocks, flattened, then the timestamp line. */
  lemma ExportedIsFlatten(obs: QPUObservables, includeAll: bool, maxQubits: Option<int>)
    ensures ExportedLines(obs, includeAll, maxQubits)
         == Flatten(Blocks(obs, includeAll, Emitted(obs, maxQubits))) + [EnvLine(LastUpdatedKey, obs.lastUpdated)]
  {
    var e := Emitted(obs, maxQubits);
    SortedKeysMembers(obs.qubits.Keys);
    var keys := SortedKeys(obs.qubits.Keys);
    LinesUpToIsFlatten(obs, includeAll, keys, |e|);
    BlocksPrefix(obs, includeAll, keys, |e|);
  }

  /** The blocks of a prefix of the keys are a prefix of the blocks. */
  lemma BlocksPrefix(obs: QPUObservables, includeAll: bool, keys: seq<int>, n: nat)
    requires n <= |keys| && forall k :: k in keys ==> k in obs.qubits
    ensures Blocks(obs, includeAll, keys)[..n] == Blocks(obs, includeAll, keys[..n])
  {
    var bs := Blocks(obs, includeAll, keys);
    var ps := Blocks(obs, includeAll, keys[..n]);
    forall j | 0 <= j < n ensures bs[..n][j] == ps[j] {
      assert keys[..n][j] == keys[j];
    }
  }

  /** Blocks of `per` lines followed by one closing line. */
  lemma FlattenThenLine(blocks: seq<seq<EnvLine>>, per: nat, last: EnvLine, lines: seq<EnvLine>)
    requires forall j :: 0 <= j < |blocks| ==> |blocks[j]| == per
    requires lines == Flatten(blocks) + [last]
    ensures |lines| == Offset(per, |blocks|) + 1 && lines[Offset(per, |blocks|)] == last
    ensures forall j :: 0 <= j < |blocks| ==>
      Offset(per, j) + per < |lines| && lines[Offset(per, j) .. Offset(per, j) + per] == blocks[j]
  {
    var front := Flatten(blocks);
    FlattenBlocks(blocks, per);
    forall j | 0 <= j < |blocks|
      ensures Offset(per, j) + per < |lines| && lines[Offset(per, j) .. Offset(per, j) + per] == blocks[j]
    {
      assert lines[Offset(per, j) .. Offset(per, j) + per] == front[Offset(per, j) .. Offset(per, j) + per];
    }
  }

  /** The timestamp line reads `QPU_LAST_UPDATED=<time>`. */
  lemma TimestampLine(value: string)
    ensures LineText(EnvLine(LastUpdatedKey, value)) == "QPU_LAST_UPDATED=" + value
  {
  }

  /**
   * The layout of the export: one block of `PerQubit` lines per emitted
   * qubit, in emission order, and the timestamp line last, so there are
   * 6k+1 (or 12k+1 with every field) lines for k emitted qubits, and a
   * single line when none is emitted.
   */
  lemma ExportLayout(obs: QPUObservables, includeAll: bool, maxQubits: Option<int>)
    ensures var e := Emitted(obs, maxQubits);
            var lines := ExportedLines(obs, includeAll, maxQubits);
            var per := PerQubit(includeAll);
            |lines| == per * |e| + 1 &&
            lines[|lines| - 1] == EnvLine(LastUpdatedKey, obs.lastUpdated) &&
            forall j :: 0 <= j < |e| ==>
              Offset(per, j) + per < |lines| &&
              lines[Offset(per, j) .. Offset(per, j) + per] == QubitLines(e[j], obs.qubits[e[j]], includeAll)
  {
    var e := Emitted(obs, maxQubits);
    var per := PerQubit(includeAll);
    var blocks := Blocks(obs, includeAll, e);
    var last := EnvLine(LastUpdatedKey, obs.lastUpdated);
    var lines := ExportedLines(obs, includeAll, maxQubits);
    ExportedIsFlatten(obs, includeAll, maxQubits);
    FlattenThenLine(blocks, per, last, lines);
    OffsetIsProduct(per, |e|);
  }

  /** Every line of a qubit's block is keyed by that qubit, so blocks of different qubits share no key. */
  lemma QubitLinesKeyed(idx: int, q: QubitObservable, includeAll: bool)
    ensures forall l :: l in QubitLines(idx, q, includeAll) ==> l.key.QubitKey? && l.key.idx == idx
  {
  }

  /** A line whose key text holds no '=', so that it splits back into key and value. */
  predicate Splittable(l: EnvLine)
  {
    l.key.LastUpdatedKey? || '=' !in l.key.name
  }

  /** Every key a qubit's block uses is a field name or a summary key, none of which holds '='. */
  lemma QubitLinesSplittable(idx: int, q: QubitObservable, includeAll: bool)
    ensures forall l :: l in QubitLines(idx, q, includeAll) ==> Splittable(l)
  {
    var ls := QubitLines(idx, q, includeAll);
    if includeAll {
      FieldNamesHaveNoEquals();
      forall f | 0 <= f < FieldCount
        ensures Splittable(ls[f])
      {
        UpperKeepsNoEquals(FieldNames()[f]);
      }
    }
    forall l | l in ls
      ensures Splittable(l)
    {
      var f :| 0 <= f < |ls| && ls[f] == l;
    }
  }

  /** No field name holds an '='. */
  lemma FieldNamesHaveNoEquals()
    ensures forall f :: 0 <= f < FieldCount ==> '=' !in FieldNames()[f]
  {
    FieldNamesHaveNoEqualsFrom(0, 6);
    FieldNamesHaveNoEqualsFrom(6, FieldCount);
  }

  /** The same, for the field names in positions `lo` up to `hi`, checked one half at a time. */
  lemma FieldNamesHaveNoEqualsFrom(lo: nat, hi: nat)
    requires (lo, hi) == (0, 6) || (lo, hi) == (6, FieldCount)
    ensures forall f :: lo <= f < hi ==> '=' !in FieldNames()[f]
  {
    var names := FieldNames();
    if lo == 0 {
      assert names[..6] == ["t1", "t2", "anharmonicity", "frequency", "gate_fidelity_1q", "gate_fidelity_2q"];
    } else {
      assert names[6..] == ["rx_duration", "ry_duration", "sqrt_iswap_duration", "reset_duration",
        "measurement_duration", "max_circuit_depth"];
    }
  }

  /** Upper-casing introduces no '='. */
  lemma UpperKeepsNoEquals(s: string)
    requires '=' !in s
    ensures '=' !in Upper(s)
  {
    var u := Upper(s);
    forall i | 0 <= i < |u|
      ensures u[i] != '='
    {
      assert s[i] in s;
    }
  }

  lemma {:induction false} FlattenSplittable(blocks: seq<seq<EnvLine>>)
    requires forall j, l :: 0 <= j < |blocks| && l in blocks[j] ==> Splittable(l)
    ensures forall l :: l in Flatten(blocks) ==> Splittable(l)
    decreases |blocks|
  {
    if blocks != [] {
      FlattenSplittable(blocks[..|blocks| - 1]);
    }
  }

  /** Every line the exporter writes splits at its first '=' into its key and its value. */
  lemma ExportedLinesSplit(obs: QPUObservables, includeAll: bool, maxQubits: Option<int>)
    ensures forall l :: l in ExportedLines(obs, includeAll, maxQubits) ==> Splittable(l)
  {
    ExportedIsFlatten(obs, includeAll, maxQubits);
    var e := Emitted(obs, maxQubits);
    var bs := Blocks(obs, includeAll, e);
    forall j | 0 <= j < |bs|
      ensures forall l :: l in bs[j] ==> Splittable(l)
    {
      QubitLinesSplittable(e[j], obs.qubits[e[j]], includeAll);
    }
    FlattenSplittable(bs);
  }

  /** Each summary line reports, under its summary key, the value of the field that key names. */
  lemma SubsetIsProjection(idx: int, q: QubitObservable)
    ensures |SubsetLines(idx, q)| == |SubsetKeys| == |SubsetFields|
    ensures forall f :: 0 <= f < |SubsetKeys| ==>
      SubsetFields[f] < FieldCount &&
      SubsetLines(idx, q)[f] == EnvLine(QubitKey(idx, SubsetKeys[f]), FieldValues(q)[SubsetFields[f]])
  {
  }

  /** The file's text ends every line, the last one included, with a newline. */
  lemma {:induction false} EnvTextTerminatesLines(lines: seq<string>)
    requires lines != []
    ensures EnvText(lines) == Terminated(lines)
  {
    if |lines| == 1 {
      assert Terminated(lines[1..]) == "";
    } else {
      EnvTextTerminatesLines(lines[1..]);
      calc {
        EnvText(lines);
        lines[0] + "\n" + Join(lines[1..]) + "\n";
        lines[0] + "\n" + (Join(lines[1..]) + "\n");
        lines[0] + "\n" + Terminated(lines[1..]);
      }
    }
  }

  /** The file's text ends with its last line and a newline. */
  lemma EnvTextEndsWithLastLine(lines: seq<string>)
    requires lines != []
    ensures var last := lines[|lines| - 1] + "\n";
            var text := EnvText(lines);
            |last| <= |text| && text[|text| - |last|..] == last
  {
    var front := lines[..|lines| - 1];
    var last := lines[|lines| - 1];
    assert lines == front + [last];
    JoinSnoc(front, last);
    var j := Join(lines);
    assert j[|j| - |last|..] == last;
    var text := EnvText(lines);
    assert text == j + "\n";
    assert text[|text| - |last| - 1..] == j[|j| - |last|..] + "\n";
  }

  /** The exported text always ends with the timestamp line and its newline, with or without qubits. */
  lemma EnvTextEndsWithTimestamp(obs: QPUObservables, includeAll: bool, maxQubits: Option<int>)
    ensures var text := EnvText(Texts(ExportedLines(obs, includeAll, maxQubits)));
            var last := "QPU_LAST_UPDATED=" + obs.lastUpdated + "\n";
            |last| <= |text| && text[|text| - |last|..] == last
  {
    ExportLayout(obs, includeAll, maxQubits);
    var lines := ExportedLines(obs, includeAll, maxQubits);
    EnvTextEndsWithLastLine(Texts(lines));
    TimestampLine(obs.lastUpdated);
  }

  /** Joining ends with the last line. */
  lemma {:induction false} JoinSnoc(front: seq<string>, last: string)
    ensures var j := Join(front + [last]);
            |last| <= |j| && j[|j| - |last|..] == last
  {
    if front == [] {
      assert front + [last] == [last];
    } else {
      assert (front + [last])[1..] == front[1..] + [last];
      JoinSnoc(front[1..], last);
    }
  }
}
