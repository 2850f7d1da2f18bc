/** Column uniqueness of the V6 generator (lib/V6/Model/Column.php): a column
    counts as unique only when its own flag is set and some unique index of
    its table consists of exactly this column. Index columns are compared by
    value; within a table whose column names are distinct this is the same
    as the source's object identity. */
module V6Column {
  import opened Schema

  /** A unique index made of exactly this one column. */
  predicate SingleUniqueOn(ix: Index, col: Column) {
    ix.isUnique && |ix.columns| == 1 && ix.columns[0] == col
  }

  /** The scan over the table's indices, stopping at the first match. */
  function AnySingleUnique(indices: seq<Index>, col: Column): (r: bool)
    ensures r <==> exists i :: 0 <= i < |indices| && SingleUniqueOn(indices[i], col)
    decreases |indices|
  {
    if indices == [] then false
    else if SingleUniqueOn(indices[0], col) then true
    else
      var rest := AnySingleUnique(indices[1..], col);
      assert rest ==> exists i :: 0 <= i < |indices| && SingleUniqueOn(indices[i], col) by {
        if rest {
          var i :| 0 <= i < |indices[1..]| && SingleUniqueOn(indices[1..][i], col);
          assert SingleUniqueOn(indices[i + 1], col);
        }
      }
      assert (exists i :: 0 <= i < |indices| && SingleUniqueOn(indices[i], col)) ==> rest by {
        if exists i :: 0 <= i < |indices| && SingleUniqueOn(indices[i], col) {
          var i :| 0 <= i < |indices| && SingleUniqueOn(indices[i], col);
          assert i != 0;
          assert SingleUniqueOn(indices[1..][i - 1], col);
        }
      }
      rest
  }

  /** `isUnique` of a column of a table with these indices. */
  function IsUnique(col: Column, indices: seq<Index>): (r: bool)
    ensures !col.unique ==> !r
    ensures r <==> col.unique && exists i :: 0 <= i < |indices| && SingleUniqueOn(indices[i], col)
  {
    col.unique && AnySingleUnique(indices, col)
  }

  /** A multi-column unique index never makes a column unique: adding one
      changes nothing. */
  lemma MultiColumnIndexIrrelevant(col: Column, indices: seq<Index>, ix: Index)
    requires |ix.columns| != 1
    ensures IsUnique(col, indices + [ix]) == IsUnique(col, indices)
  {
    if IsUnique(col, indices + [ix]) {
      var i :| 0 <= i < |indices + [ix]| && SingleUniqueOn((indices + [ix])[i], col);
      assert i < |indices| && SingleUniqueOn(indices[i], col);
    }
    if IsUnique(col, indices) {
      var i :| 0 <= i < |indices| && SingleUniqueOn(indices[i], col);
      assert SingleUniqueOn((indices + [ix])[i], col);
    }
  }

  /** The answer does not depend on the order of the indices. */
  lemma OrderIndependent(col: Column, indices: seq<Index>, other: seq<Index>)
    requires multiset(indices) == multiset(other)
    ensures IsUnique(col, indices) == IsUnique(col, other)
  {
    forall a: seq<Index>, b: seq<Index> | multiset(a) == multiset(b) && IsUnique(col, a)
      ensures IsUnique(col, b)
    {
      var i :| 0 <= i < |a| && SingleUniqueOn(a[i], col);
      assert a[i] in multiset(b);
      var j :| 0 <= j < |b| && b[j] == a[i];
      assert SingleUniqueOn(b[j], col);
    }
  }
}
