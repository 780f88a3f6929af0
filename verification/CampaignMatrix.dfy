/**
  The pre-registered execution matrix: case × repetition × variant, in counterbalanced order
  (`build_campaign_records`).
*/
module CampaignMatrix {
  import opened CampaignDomain
  import opened Counting

  /** Multiplication as repeated addition, which keeps the enumeration arguments linear. */
  function Times(a: nat, b: nat): nat {
    if a == 0 then 0 else Times(a - 1, b) + b
  }

  lemma {:induction false} TimesIsProduct(a: nat, b: nat)
    ensures Times(a, b) == a * b
  {
    if a > 0 {
      TimesIsProduct(a - 1, b);
      assert a * b == (a - 1) * b + b;
    }
  }

  predicate Odd(n: nat) {
    n > 0 && !Odd(n - 1)
  }

  lemma {:induction false} OddIsRemainder(n: nat)
    ensures Odd(n) <==> n % 2 == 1
  {
    if n > 0 { OddIsRemainder(n - 1); }
  }

  lemma {:induction false} OddSum(a: nat, b: nat)
    ensures Odd(a + b) <==> Odd(a) != Odd(b)
  {
    if b > 0 { OddSum(a, b - 1); }
  }

  /** Whether the block of `repetition` and `caseIndex` lists the variants in their given order. */
  predicate Forward(repetition: nat, caseIndex: nat) {
    Odd(repetition + caseIndex)
  }

  /** Where variant number `v` of `k` stands inside its block; its own inverse. */
  function Position(forward: bool, k: nat, v: nat): nat
    requires v < k
  {
    if forward then v else k - 1 - v
  }

  /** The planned slot without its ordinal: indices of the case and the variant, and the repetition. */
  datatype Cell = Cell(caseIndex: nat, repetition: nat, variantIndex: nat)

  // ----- concatenations of parts of equal length -----

  function Flatten<T>(parts: seq<seq<T>>): seq<T> {
    if parts == [] then [] else Flatten(parts[..|parts| - 1]) + parts[|parts| - 1]
  }

  ghost predicate Uniform<T>(parts: seq<seq<T>>, length: nat) {
    forall i :: 0 <= i < |parts| ==> |parts[i]| == length
  }

  lemma {:induction false} FlattenLength<T>(parts: seq<seq<T>>, length: nat)
    requires Uniform(parts, length)
    ensures |Flatten(parts)| == Times(|parts|, length)
  {
    if parts != [] { FlattenLength(parts[..|parts| - 1], length); }
  }

  lemma {:induction false} FlattenAt<T>(parts: seq<seq<T>>, length: nat, i: nat, p: nat)
    requires Uniform(parts, length) && i < |parts| && p < length
    ensures Times(i, length) + p < |Flatten(parts)| && Flatten(parts)[Times(i, length) + p] == parts[i][p]
  {
    FlattenLength(parts[..|parts| - 1], length);
    if i < |parts| - 1 {
      FlattenAt(parts[..|parts| - 1], length, i, p);
    }
  }

  lemma {:induction false} FlattenLocate<T>(parts: seq<seq<T>>, length: nat, at: nat) returns (i: nat, p: nat)
    requires Uniform(parts, length) && at < |Flatten(parts)|
    ensures i < |parts| && p < length && at == Times(i, length) + p
  {
    var rest := parts[..|parts| - 1];
    FlattenLength(rest, length);
    if at < |Flatten(rest)| {
      i, p := FlattenLocate(rest, length, at);
    } else {
      i, p := |parts| - 1, at - |Flatten(rest)|;
    }
  }

  // ----- the matrix -----

  /** The cells of one block. */
  function Block(k: nat, repetition: nat, caseIndex: nat): (b: seq<Cell>)
    ensures |b| == k
    ensures forall p :: 0 <= p < k ==>
      b[p] == Cell(caseIndex, repetition, Position(Forward(repetition, caseIndex), k, p))
  {
    seq(k, p requires 0 <= p < k => Cell(caseIndex, repetition, Position(Forward(repetition, caseIndex), k, p)))
  }

  /** The first `columns` blocks of one repetition. */
  function Blocks(k: nat, repetition: nat, columns: nat): (r: seq<seq<Cell>>)
    ensures |r| == columns && forall c :: 0 <= c < columns ==> r[c] == Block(k, repetition, c)
  {
    seq(columns, c requires 0 <= c < columns => Block(k, repetition, c))
  }

  /** The first `rounds` repetitions over `n` cases. */
  function Rows(rounds: nat, n: nat, k: nat): (r: seq<seq<Cell>>)
    ensures |r| == rounds && forall i :: 0 <= i < rounds ==> r[i] == Flatten(Blocks(k, i + 1, n))
  {
    seq(rounds, i requires 0 <= i < rounds => Flatten(Blocks(k, i + 1, n)))
  }

  /** The whole matrix of `rounds` repetitions, `n` cases and `k` variants. */
  function Matrix(rounds: nat, n: nat, k: nat): seq<Cell> {
    Flatten(Rows(rounds, n, k))
  }

  /** The mixed-radix index of a cell, with the last digit reversed in every other block. */
  function IndexOf(n: nat, k: nat, cell: Cell): nat
    requires cell.repetition >= 1 && cell.variantIndex < k
  {
    Times(cell.repetition - 1, Times(n, k)) + (Times(cell.caseIndex, k) +
    Position(Forward(cell.repetition, cell.caseIndex), k, cell.variantIndex))
  }

  predicate InMatrix(rounds: nat, n: nat, k: nat, cell: Cell) {
    1 <= cell.repetition <= rounds && cell.caseIndex < n && cell.variantIndex < k
  }

  /** The mixed-radix reading of the index, with the last digit reversed in every other block. */
  lemma IndexFormula(n: nat, k: nat, cell: Cell)
    requires cell.repetition >= 1 && cell.variantIndex < k
    ensures IndexOf(n, k, cell) ==
            (cell.repetition - 1) * (n * k) + cell.caseIndex * k +
            (if (cell.repetition + cell.caseIndex) % 2 == 1 then cell.variantIndex else k - 1 - cell.variantIndex)
  {
    OddIsRemainder(cell.repetition + cell.caseIndex);
    TimesIsProduct(n, k);
    TimesIsProduct(cell.repetition - 1, n * k);
    TimesIsProduct(cell.caseIndex, k);
  }

  ghost predicate Describes(c: Config, record: Record, cell: Cell, index: nat) {
    && cell.caseIndex < |c.caseIds| && cell.variantIndex < |c.variants|
    && record == FreshRecord(Slot(index + 1, c.caseIds[cell.caseIndex], cell.repetition, c.variants[cell.variantIndex]))
  }

  ghost predicate DescribesAll(c: Config, records: seq<Record>, cells: seq<Cell>) {
    |records| == |cells| && forall i :: 0 <= i < |records| ==> Describes(c, records[i], cells[i], i)
  }

  ghost predicate IsMatrix(c: Config, records: seq<Record>) {
    DescribesAll(c, records, Matrix(c.repetitions, |c.caseIds|, |c.variants|))
  }

  lemma AppendOne(c: Config, records: seq<Record>, cells: seq<Cell>, record: Record, cell: Cell)
    requires DescribesAll(c, records, cells) && Describes(c, record, cell, |records|)
    ensures DescribesAll(c, records + [record], cells + [cell])
  {
  }

  /** The innermost loop of `build_campaign_records`: one block of slots, continuing the list. */
  method AppendBlock(c: Config, repetition: nat, caseIndex: nat, records: seq<Record>, ghost before: seq<Cell>)
    returns (extended: seq<Record>)
    requires caseIndex < |c.caseIds| && DescribesAll(c, records, before)
    ensures DescribesAll(c, extended, before + Block(|c.variants|, repetition, caseIndex))
  {
    var k := |c.variants|;
    OddIsRemainder(repetition + caseIndex);
    var ordered := if (repetition + caseIndex) % 2 == 1 then c.variants else Reversed(c.variants);
    extended := records;
    var ordinal := |records|;
    for position := 0 to k
      invariant ordinal == |extended|
      invariant DescribesAll(c, extended, before + Block(k, repetition, caseIndex)[..position])
    {
      ordinal := ordinal + 1;
      var record := FreshRecord(Slot(ordinal, c.caseIds[caseIndex], repetition, ordered[position]));
      ghost var cell := Cell(caseIndex, repetition, Position(Forward(repetition, caseIndex), k, position));
      ghost var cells := before + Block(k, repetition, caseIndex)[..position];
      AppendOne(c, extended, cells, record, cell);
      assert cells + [cell] == before + Block(k, repetition, caseIndex)[..position + 1];
      extended := extended + [record];
    }
    assert Block(k, repetition, caseIndex)[..k] == Block(k, repetition, caseIndex);
  }

  lemma RowStep(k: nat, repetition: nat, caseIndex: nat, above: seq<Cell>)
    ensures above + Flatten(Blocks(k, repetition, caseIndex)) + Block(k, repetition, caseIndex)
         == above + Flatten(Blocks(k, repetition, caseIndex + 1))
  {
    assert Blocks(k, repetition, caseIndex + 1)[..caseIndex] == Blocks(k, repetition, caseIndex);
  }

  lemma MatrixStep(rounds: nat, n: nat, k: nat)
    ensures Matrix(rounds, n, k) + Flatten(Blocks(k, rounds + 1, n)) == Matrix(rounds + 1, n, k)
  {
    assert Rows(rounds + 1, n, k)[..rounds] == Rows(rounds, n, k);
  }

  /** The two outer loops of `build_campaign_records`; repetitions are numbered from 1. */
  method BuildCampaignRecords(c: Config) returns (records: seq<Record>)
    ensures IsMatrix(c, records)
  {
    var n, k := |c.caseIds|, |c.variants|;
    records := [];
    for done := 0 to c.repetitions
      invariant DescribesAll(c, records, Matrix(done, n, k))
    {
      var repetition := done + 1;
      ghost var above := Matrix(done, n, k);
      for caseIndex := 0 to n
        invariant DescribesAll(c, records, above + Flatten(Blocks(k, repetition, caseIndex)))
      {
        records := AppendBlock(c, repetition, caseIndex, records, above + Flatten(Blocks(k, repetition, caseIndex)));
        RowStep(k, repetition, caseIndex, above);
      }
      MatrixStep(done, n, k);
    }
  }

  // ----- each cell exactly once, at the mixed-radix index -----

  lemma UniformRows(rounds: nat, n: nat, k: nat)
    ensures Uniform(Rows(rounds, n, k), Times(n, k))
    ensures |Matrix(rounds, n, k)| == Times(rounds, Times(n, k))
  {
    forall i | 0 <= i < rounds ensures |Rows(rounds, n, k)[i]| == Times(n, k) {
      FlattenLength(Blocks(k, i + 1, n), k);
    }
    FlattenLength(Rows(rounds, n, k), Times(n, k));
  }

  lemma BlockAt(k: nat, repetition: nat, caseIndex: nat, v: nat)
    requires v < k
    ensures Block(k, repetition, caseIndex)[Position(Forward(repetition, caseIndex), k, v)] ==
            Cell(caseIndex, repetition, v)
  {
  }

  lemma RowAt(k: nat, repetition: nat, n: nat, caseIndex: nat, p: nat)
    requires caseIndex < n && p < k
    ensures Times(caseIndex, k) + p < Times(n, k) == |Flatten(Blocks(k, repetition, n))|
    ensures Flatten(Blocks(k, repetition, n))[Times(caseIndex, k) + p] == Block(k, repetition, caseIndex)[p]
  {
    FlattenLength(Blocks(k, repetition, n), k);
    FlattenAt(Blocks(k, repetition, n), k, caseIndex, p);
  }

  lemma RowOf(rounds: nat, n: nat, k: nat, repetition: nat, j: nat)
    requires 1 <= repetition <= rounds && j < Times(n, k)
    requires Uniform(Rows(rounds, n, k), Times(n, k)) && |Flatten(Blocks(k, repetition, n))| == Times(n, k)
    ensures
      var at := Times(repetition - 1, Times(n, k)) + j;
      at < |Matrix(rounds, n, k)| && Matrix(rounds, n, k)[at] == Flatten(Blocks(k, repetition, n))[j]
  {
    FlattenAt(Rows(rounds, n, k), Times(n, k), repetition - 1, j);
  }

  lemma PlaceAt(rounds: nat, n: nat, k: nat, repetition: nat, caseIndex: nat, p: nat)
    requires 1 <= repetition <= rounds && caseIndex < n && p < k
    ensures
      var at := Times(repetition - 1, Times(n, k)) + (Times(caseIndex, k) + p);
      at < |Matrix(rounds, n, k)| && Matrix(rounds, n, k)[at] == Block(k, repetition, caseIndex)[p]
  {
    RowAt(k, repetition, n, caseIndex, p);
    UniformRows(rounds, n, k);
    RowOf(rounds, n, k, repetition, Times(caseIndex, k) + p);
  }

  lemma CellAt(rounds: nat, n: nat, k: nat, cell: Cell)
    requires InMatrix(rounds, n, k, cell)
    ensures IndexOf(n, k, cell) < |Matrix(rounds, n, k)| && Matrix(rounds, n, k)[IndexOf(n, k, cell)] == cell
  {
    var p := Position(Forward(cell.repetition, cell.caseIndex), k, cell.variantIndex);
    BlockAt(k, cell.repetition, cell.caseIndex, cell.variantIndex);
    PlaceAt(rounds, n, k, cell.repetition, cell.caseIndex, p);
  }

  /** The mixed-radix digits of a place. */
  lemma PlaceDigits(rounds: nat, n: nat, k: nat, i: nat) returns (row: nat, caseIndex: nat, p: nat)
    requires i < |Matrix(rounds, n, k)|
    ensures row < rounds && caseIndex < n && p < k
    ensures i == Times(row, Times(n, k)) + (Times(caseIndex, k) + p)
  {
    UniformRows(rounds, n, k);
    var j;
    row, j := FlattenLocate(Rows(rounds, n, k), Times(n, k), i);
    FlattenLength(Blocks(k, row + 1, n), k);
    caseIndex, p := FlattenLocate(Blocks(k, row + 1, n), k, j);
  }

  /** `IndexOf` is onto: whatever stands at `i` has the index `i`. */
  lemma MatrixLocate(rounds: nat, n: nat, k: nat, i: nat)
    requires i < |Matrix(rounds, n, k)|
    ensures InMatrix(rounds, n, k, Matrix(rounds, n, k)[i])
    ensures IndexOf(n, k, Matrix(rounds, n, k)[i]) == i
  {
    var row, caseIndex, p := PlaceDigits(rounds, n, k, i);
    CellAt(rounds, n, k, Cell(caseIndex, row + 1, Position(Forward(row + 1, caseIndex), k, p)));
  }

  /** Each (case, repetition, variant) is planned at exactly one place: the index `IndexOf` gives. */
  lemma ExactlyOnce(c: Config, records: seq<Record>, cell: Cell)
    requires IsMatrix(c, records) && Distinct(c.caseIds) && Distinct(c.variants)
    requires InMatrix(c.repetitions, |c.caseIds|, |c.variants|, cell)
    ensures IndexOf(|c.caseIds|, |c.variants|, cell) < |records|
    ensures forall i :: 0 <= i < |records| ==>
      ((records[i].slot.caseId == c.caseIds[cell.caseIndex] && records[i].slot.repetition == cell.repetition &&
        records[i].slot.variant == c.variants[cell.variantIndex])
        <==> i == IndexOf(|c.caseIds|, |c.variants|, cell))
  {
    var rounds, n, k := c.repetitions, |c.caseIds|, |c.variants|;
    var m := Matrix(rounds, n, k);
    CellAt(rounds, n, k, cell);
    forall i | 0 <= i < |records| && records[i].slot.caseId == c.caseIds[cell.caseIndex] &&
      records[i].slot.repetition == cell.repetition && records[i].slot.variant == c.variants[cell.variantIndex]
      ensures i == IndexOf(n, k, cell)
    {
      assert Describes(c, records[i], m[i], i);
      assert m[i] == cell;
      MatrixLocate(rounds, n, k, i);
    }
    var at := IndexOf(n, k, cell);
    assert Describes(c, records[at], m[at], at);
  }

  /** The number of slots, and that every slot lies inside the requested matrix. */
  lemma NothingElse(c: Config, records: seq<Record>)
    requires IsMatrix(c, records)
    ensures |records| == c.repetitions * (|c.caseIds| * |c.variants|)
    ensures forall i :: 0 <= i < |records| ==>
      records[i].slot.caseId in c.caseIds && records[i].slot.variant in c.variants &&
      1 <= records[i].slot.repetition <= c.repetitions
    ensures forall i :: 0 <= i < |records| ==>
      records[i].slot.ordinal == i + 1 &&
      records[i] == Record(records[i].slot, Pending, 0, "", "", "", EMPTY_EVIDENCE, [], NoError)
  {
    var rounds, n, k := c.repetitions, |c.caseIds|, |c.variants|;
    var m := Matrix(rounds, n, k);
    UniformRows(rounds, n, k);
    TimesIsProduct(n, k);
    TimesIsProduct(rounds, n * k);
    forall i | 0 <= i < |records|
      ensures records[i].slot.caseId in c.caseIds && records[i].slot.variant in c.variants &&
        1 <= records[i].slot.repetition <= rounds
    {
      MatrixLocate(rounds, n, k, i);
      assert Describes(c, records[i], m[i], i);
    }
  }

  function RecordFor(c: Config, cell: Cell, index: nat): Record
    requires InMatrix(c.repetitions, |c.caseIds|, |c.variants|, cell)
  {
    FreshRecord(Slot(index + 1, c.caseIds[cell.caseIndex], cell.repetition, c.variants[cell.variantIndex]))
  }

  lemma MatrixCells(rounds: nat, n: nat, k: nat)
    ensures forall i :: 0 <= i < |Matrix(rounds, n, k)| ==> InMatrix(rounds, n, k, Matrix(rounds, n, k)[i])
  {
    forall i | 0 <= i < |Matrix(rounds, n, k)| ensures InMatrix(rounds, n, k, Matrix(rounds, n, k)[i]) {
      MatrixLocate(rounds, n, k, i);
    }
  }

  /** The planned records as a value. */
  function PlannedRecords(c: Config): (records: seq<Record>)
    ensures IsMatrix(c, records)
  {
    var m := Matrix(c.repetitions, |c.caseIds|, |c.variants|);
    MatrixCells(c.repetitions, |c.caseIds|, |c.variants|);
    seq(|m|, i requires 0 <= i < |m| && InMatrix(c.repetitions, |c.caseIds|, |c.variants|, m[i]) =>
      RecordFor(c, m[i], i))
  }

  /** Records in any state of progress whose slots are those of the planned matrix. */
  ghost predicate OnMatrix(c: Config, records: seq<Record>) {
    |records| == |PlannedRecords(c)| && forall i :: 0 <= i < |records| ==> records[i].slot == PlannedRecords(c)[i].slot
  }

  lemma MatrixUnique(c: Config, a: seq<Record>, b: seq<Record>)
    requires IsMatrix(c, a) && IsMatrix(c, b)
    ensures a == b
  {
    var m := Matrix(c.repetitions, |c.caseIds|, |c.variants|);
    forall i | 0 <= i < |a| ensures a[i] == b[i] {
      assert Describes(c, a[i], m[i], i) && Describes(c, b[i], m[i], i);
    }
  }

  // ----- counterbalancing -----

  /** Forward blocks minus reversed blocks among the first `columns` blocks of a repetition. */
  function RowExcess(repetition: nat, columns: nat): int {
    if columns == 0 then 0
    else RowExcess(repetition, columns - 1) + (if Forward(repetition, columns - 1) then 1 else -1)
  }

  function Excess(rounds: nat, n: nat): int {
    if rounds == 0 then 0 else Excess(rounds - 1, n) + RowExcess(rounds, n)
  }

  lemma {:induction false} RowExcessValue(repetition: nat, columns: nat)
    ensures RowExcess(repetition, columns) ==
            if !Odd(columns) then 0 else if Forward(repetition, 0) then 1 else -1
  {
    if columns > 0 {
      OddSum(repetition, columns - 1);
      RowExcessValue(repetition, columns - 1);
    }
  }

  /** Forward blocks exceed reversed blocks by one when rounds and n are both odd, and by none otherwise. */
  lemma {:induction false} ExcessValue(rounds: nat, n: nat)
    ensures Excess(rounds, n) == if Odd(n) && Odd(rounds) then 1 else 0
  {
    if rounds > 0 {
      ExcessValue(rounds - 1, n);
      RowExcessValue(rounds, n);
    }
  }

  /** The total of the in-block positions at which variant `v` runs. */
  function RowPosition(repetition: nat, columns: nat, k: nat, v: nat): nat
    requires v < k
  {
    if columns == 0 then 0
    else RowPosition(repetition, columns - 1, k, v) + Position(Forward(repetition, columns - 1), k, v)
  }

  function TotalPosition(rounds: nat, n: nat, k: nat, v: nat): nat
    requires v < k
  {
    if rounds == 0 then 0 else TotalPosition(rounds - 1, n, k, v) + RowPosition(rounds, n, k, v)
  }

  lemma {:induction false} RowPositionValue(repetition: nat, columns: nat, k: nat, v: nat)
    requires v < k
    ensures 2 * RowPosition(repetition, columns, k, v) ==
            Times(columns, k - 1) +
            (if !Odd(columns) then 0 else if Forward(repetition, 0) then 2 * v - (k - 1) else (k - 1) - 2 * v)
  {
    if columns > 0 {
      OddSum(repetition, columns - 1);
      RowPositionValue(repetition, columns - 1, k, v);
    }
  }

  lemma {:induction false} TotalPositionValue(rounds: nat, n: nat, k: nat, v: nat)
    requires v < k
    ensures 2 * TotalPosition(rounds, n, k, v) ==
            Times(rounds, Times(n, k - 1)) + (if Odd(n) && Odd(rounds) then 2 * v - (k - 1) else 0)
  {
    if rounds > 0 {
      TotalPositionValue(rounds - 1, n, k, v);
      RowPositionValue(rounds, n, k, v);
    }
  }

  /**
    All variants have the same total position exactly when the number of blocks rounds*n is even, or
    there is only one variant.
  */
  lemma Counterbalanced(rounds: nat, n: nat, k: nat)
    requires k > 0
    ensures (n % 2 == 0 || rounds % 2 == 0 || k == 1) <==>
            (forall v, w :: 0 <= v < k && 0 <= w < k ==>
               TotalPosition(rounds, n, k, v) == TotalPosition(rounds, n, k, w))
  {
    var even := Times(rounds, Times(n, k - 1));
    OddIsRemainder(n);
    OddIsRemainder(rounds);
    var odd := Odd(n) && Odd(rounds);
    forall v | 0 <= v < k
      ensures 2 * TotalPosition(rounds, n, k, v) == even + (if odd then 2 * v - (k - 1) else 0)
    {
      TotalPositionValue(rounds, n, k, v);
    }
    if odd && k > 1 {
      assert TotalPosition(rounds, n, k, 0) != TotalPosition(rounds, n, k, k - 1);
    }
  }

  /** The common total position is then rounds*n*(k-1)/2. */
  lemma CommonPosition(rounds: nat, n: nat, k: nat, v: nat)
    requires v < k && (n % 2 == 0 || rounds % 2 == 0)
    ensures 2 * TotalPosition(rounds, n, k, v) == rounds * (n * (k - 1))
  {
    OddIsRemainder(n);
    OddIsRemainder(rounds);
    TimesIsProduct(n, k - 1);
    TimesIsProduct(rounds, n * (k - 1));
    TotalPositionValue(rounds, n, k, v);
  }
}
