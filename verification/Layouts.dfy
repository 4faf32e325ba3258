/** Column layouts: ids are positions, paths are unique, and both survive every expansion. */
module Layouts {
  import opened Samples

  ghost predicate DenseIds(columns: seq<Column>) {
    forall i | 0 <= i < |columns| :: columns[i].fieldId == i
  }

  ghost predicate UniquePaths(columns: seq<Column>) {
    forall i, j | 0 <= i < j < |columns| :: columns[i].path != columns[j].path
  }

  ghost predicate LayoutOk(columns: seq<Column>) {
    DenseIds(columns) && UniquePaths(columns)
  }

  ghost predicate HasPath(columns: seq<Column>, path: string) {
    exists i | 0 <= i < |columns| :: columns[i].path == path
  }

  /** The position of a path, or the number of columns when it is absent. */
  method FindPath(columns: seq<Column>, path: string) returns (at: nat)
    ensures at <= |columns| && (at < |columns| <==> HasPath(columns, path))
    ensures at < |columns| ==> columns[at].path == path
  {
    at := 0;
    while at < |columns| && columns[at].path != path
      invariant at <= |columns|
      invariant forall i | 0 <= i < at :: columns[i].path != path
    {
      at := at + 1;
    }
  }

  function WithColumn(columns: seq<Column>, path: string, logicalType: nat): seq<Column> {
    columns + [Column(|columns|, path, logicalType)]
  }

  lemma WithColumnOk(columns: seq<Column>, path: string, logicalType: nat)
    requires LayoutOk(columns) && !HasPath(columns, path)
    ensures LayoutOk(WithColumn(columns, path, logicalType))
  {
  }

  // ---------------------------------------------------------------- array elements

  function Decimal(n: nat): string {
    var digit := [(48 + n % 10) as char];
    if n < 10 then digit else Decimal(n / 10) + digit
  }

  /** The path of one element of a variable-length array. */
  function ElementPath(field: string, index: nat): string {
    field + "[" + Decimal(index) + "]"
  }

  /** The leaves of one array element: path suffix and type. A primitive element has the one leaf "". */
  type Leaves = seq<(string, nat)>

  predicate StartsWith(s: string, prefix: string) {
    prefix <= s
  }

  /** A column belongs to an element when it is the element or lies below it. */
  predicate Below(path: string, element: string) {
    path == element || StartsWith(path, element + ".")
  }

  ghost predicate LeavesOk(leaves: Leaves) {
    && (forall i | 0 <= i < |leaves| :: leaves[i].0 == "" || StartsWith(leaves[i].0, "."))
    && (forall i, j | 0 <= i < j < |leaves| :: leaves[i].0 != leaves[j].0)
  }

  /** Whether an element is present; without a schema only the element's own path counts. */
  method ElementPresent(columns: seq<Column>, element: string, bySchema: bool) returns (present: bool)
    ensures present <==> exists i | 0 <= i < |columns| :: Holds(columns[i].path, element, bySchema)
  {
    for i := 0 to |columns|
      invariant forall j | 0 <= j < i :: !Holds(columns[j].path, element, bySchema)
    {
      if Holds(columns[i].path, element, bySchema) {
        return true;
      }
    }
    return false;
  }

  predicate Holds(path: string, element: string, bySchema: bool) {
    path == element || (bySchema && StartsWith(path, element + "."))
  }

  /** Appends the columns of one element. */
  method AddLeaves(columns: seq<Column>, element: string, leaves: Leaves) returns (after: seq<Column>)
    ensures columns <= after && |after| == |columns| + |leaves|
    ensures forall i | 0 <= i < |leaves| ::
              after[|columns| + i] == Column(|columns| + i, element + leaves[i].0, leaves[i].1)
  {
    after := columns;
    for i := 0 to |leaves|
      invariant columns <= after && |after| == |columns| + i
      invariant forall j | 0 <= j < i ::
                  after[|columns| + j] == Column(|columns| + j, element + leaves[j].0, leaves[j].1)
    {
      after := WithColumn(after, element + leaves[i].0, leaves[i].1);
    }
  }

  lemma LeafBelow(element: string, suffix: string)
    requires suffix == "" || StartsWith(suffix, ".")
    ensures Below(element + suffix, element)
  {
    if suffix != "" {
      assert suffix == "." + suffix[1..];
      assert element + suffix == (element + ".") + suffix[1..];
    }
  }

  lemma SuffixesDiffer(element: string, a: string, b: string)
    requires a != b
    ensures element + a != element + b
  {
    assert (element + a)[|element|..] == a && (element + b)[|element|..] == b;
  }

  lemma AddLeavesOk(columns: seq<Column>, element: string, leaves: Leaves, after: seq<Column>)
    requires LayoutOk(columns) && LeavesOk(leaves)
    requires forall i | 0 <= i < |columns| :: !Below(columns[i].path, element)
    requires columns <= after && |after| == |columns| + |leaves|
    requires forall i | 0 <= i < |leaves| ::
               after[|columns| + i] == Column(|columns| + i, element + leaves[i].0, leaves[i].1)
    ensures LayoutOk(after)
  {
    var n := |columns|;
    forall i | 0 <= i < |after| ensures after[i].fieldId == i {
      if i >= n {
        assert leaves[i - n] == leaves[i - n];
        assert after[n + (i - n)].fieldId == n + (i - n);
      } else {
        assert after[i] == columns[i];
      }
    }
    forall i, j | 0 <= i < j < |after| ensures after[i].path != after[j].path {
      if j >= n {
        assert after[n + (j - n)] == after[j];
        LeafBelow(element, leaves[j - n].0);
        if i >= n {
          assert after[n + (i - n)] == after[i];
          SuffixesDiffer(element, leaves[i - n].0, leaves[j - n].0);
        } else {
          assert after[i] == columns[i];
        }
      }
    }
  }

  ghost predicate ElementIn(columns: seq<Column>, field: string, index: nat) {
    exists i | 0 <= i < |columns| :: Below(columns[i].path, ElementPath(field, index))
  }

  /** Adds the elements `from..to` that are not present yet; ids stay dense and paths unique. */
  method AddElements(columns: seq<Column>, field: string, from: nat, to: nat, leaves: Leaves, bySchema: bool)
      returns (after: seq<Column>)
    requires from <= to && LeavesOk(leaves) && (!bySchema ==> |leaves| == 1 && leaves[0].0 == "")
    ensures columns <= after
    ensures LayoutOk(columns) ==> LayoutOk(after)
    ensures leaves != [] ==> forall index | from <= index < to :: ElementIn(after, field, index)
  {
    after := columns;
    for index := from to to
      invariant columns <= after
      invariant LayoutOk(columns) ==> LayoutOk(after)
      invariant leaves != [] ==> forall k | from <= k < index :: ElementIn(after, field, k)
    {
      after := AddElement(after, field, index, leaves, bySchema, from);
    }
  }

  method AddElement(columns: seq<Column>, field: string, index: nat, leaves: Leaves, bySchema: bool, ghost from: nat)
      returns (after: seq<Column>)
    requires LeavesOk(leaves) && (!bySchema ==> |leaves| == 1 && leaves[0].0 == "")
    ensures columns <= after
    ensures LayoutOk(columns) ==> LayoutOk(after)
    ensures leaves != [] ==> ElementIn(after, field, index)
    ensures forall k | from <= k < index && ElementIn(columns, field, k) :: ElementIn(after, field, k)
  {
    after := columns;
    var element := ElementPath(field, index);
    var present := ElementPresent(columns, element, bySchema);
    if !present {
      after := AddLeaves(columns, element, leaves);
      if LayoutOk(columns) {
        if bySchema {
          AddLeavesOk(columns, element, leaves, after);
        } else {
          assert element + "" == element;
          assert after[|columns| + 0] == Column(|columns|, element, leaves[0].1);
          assert after == WithColumn(columns, element, leaves[0].1);
          WithColumnOk(columns, element, leaves[0].1);
        }
      }
      if leaves != [] {
        LeafBelow(element, leaves[0].0);
        assert after[|columns| + 0].path == element + leaves[0].0;
      }
    }
    forall k | from <= k < index && ElementIn(columns, field, k) ensures ElementIn(after, field, k) {
      var i :| 0 <= i < |columns| && Below(columns[i].path, ElementPath(field, k));
      assert after[i] == columns[i];
    }
  }
}
