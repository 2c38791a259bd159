/*
 * The numbering loop of mutation dbv_154 (bin/dbsv-update.php:1086-1111):
 * when some picture still has `seq` = 0, the pictures are read in
 * (`object_type`, `object_id`, `date_created`) order and each picture gets the
 * position it has within its (`object_type`, `object_id`) group, counting
 * from 1. The unique index (`object_type`, `object_id`, `seq`) added right
 * after it needs these numbers to be distinct within each group.
 */
module PictureOrder {

  /** One row of `pictures`, with the date as a sortable number. */
  datatype Picture = Picture(id: nat, objectType: nat, objectId: nat, dateCreated: int, seqNo: int)

  predicate SameGroup(p: Picture, q: Picture) {
    p.objectType == q.objectType && p.objectId == q.objectId
  }

  /** The sequence number the loop gives the row at position `i`: 1 where a new
      group starts, one more than the previous row's otherwise. */
  function SeqAt(rows: seq<Picture>, i: nat): (n: nat)
    requires i < |rows|
    ensures n >= 1
    ensures n <= i + 1
  {
    if i == 0 || !SameGroup(rows[i - 1], rows[i]) then 1 else SeqAt(rows, i - 1) + 1
  }

  /** Every row with its sequence number. */
  function Numbered(rows: seq<Picture>): (r: seq<Picture>)
    ensures |r| == |rows|
  {
    seq(|rows|, i requires 0 <= i < |rows| => rows[i].(seqNo := SeqAt(rows, i)))
  }

  /** Some row still has `seq` = 0. */
  predicate HasUnnumbered(rows: seq<Picture>) {
    exists i :: 0 <= i < |rows| && rows[i].seqNo == 0
  }

  /** SELECT COUNT(*) FROM `pictures` WHERE `seq` = 0. */
  function CountUnnumbered(rows: seq<Picture>): (n: nat)
    ensures n <= |rows|
  {
    if rows == [] then 0
    else (if rows[0].seqNo == 0 then 1 else 0) + CountUnnumbered(rows[1..])
  }

  /** The guard of the loop is the count being non-zero. */
  lemma {:induction false} CountUnnumberedPositive(rows: seq<Picture>)
    ensures CountUnnumbered(rows) != 0 <==> HasUnnumbered(rows)
  {
    if rows != [] {
      CountUnnumberedPositive(rows[1..]);
      if HasUnnumbered(rows[1..]) && rows[0].seqNo != 0 {
        var i :| 0 <= i < |rows[1..]| && rows[1..][i].seqNo == 0;
        assert rows[i + 1].seqNo == 0;
      }
      if HasUnnumbered(rows) && rows[0].seqNo != 0 {
        var i :| 0 <= i < |rows| && rows[i].seqNo == 0;
        assert rows[1..][i - 1].seqNo == 0;
      }
    }
  }

  /** The query's ORDER BY `object_type`, `object_id`, `date_created`. */
  predicate QueryOrder(rows: seq<Picture>) {
    forall i, j :: 0 <= i < j < |rows| ==>
      rows[i].objectType < rows[j].objectType ||
      (rows[i].objectType == rows[j].objectType &&
       (rows[i].objectId < rows[j].objectId ||
        (rows[i].objectId == rows[j].objectId && rows[i].dateCreated <= rows[j].dateCreated)))
  }

  /** The rows of a group stand together. */
  predicate GroupsContiguous(rows: seq<Picture>) {
    forall i, k, j :: 0 <= i < k < j < |rows| && SameGroup(rows[i], rows[j]) ==> SameGroup(rows[i], rows[k])
  }

  lemma QueryOrderContiguous(rows: seq<Picture>)
    requires QueryOrder(rows)
    ensures GroupsContiguous(rows)
  {
  }

  /** Within a contiguous group, the number grows by one from row to row. */
  lemma {:induction false} SeqAtDistance(rows: seq<Picture>, i: nat, j: nat)
    requires GroupsContiguous(rows)
    requires i <= j < |rows| && SameGroup(rows[i], rows[j])
    ensures SeqAt(rows, j) == SeqAt(rows, i) + (j - i)
    decreases j - i
  {
    if i < j {
      assert SameGroup(rows[i], rows[j - 1]);
      assert SameGroup(rows[j - 1], rows[j]);
      SeqAtDistance(rows, i, j - 1);
    }
  }

  /** The numbers within a group are distinct and follow the query order, so
      the unique index (`object_type`, `object_id`, `seq`) can be built. */
  lemma NumberedKeysUnique(rows: seq<Picture>, i: nat, j: nat)
    requires GroupsContiguous(rows)
    requires i < j < |rows|
    ensures SameGroup(rows[i], rows[j]) ==> Numbered(rows)[i].seqNo < Numbered(rows)[j].seqNo
    ensures Numbered(rows)[i].objectType != Numbered(rows)[j].objectType ||
            Numbered(rows)[i].objectId != Numbered(rows)[j].objectId ||
            Numbered(rows)[i].seqNo != Numbered(rows)[j].seqNo
  {
    if SameGroup(rows[i], rows[j]) {
      SeqAtDistance(rows, i, j);
    }
  }

  /** The numbers of a group have no holes: below every number, each smaller
      positive number belongs to an earlier row of the same group. */
  lemma {:induction false} NumberedDense(rows: seq<Picture>, i: nat, k: nat)
    requires i < |rows|
    requires 1 <= k <= SeqAt(rows, i)
    ensures exists j :: 0 <= j <= i && SameGroup(rows[j], rows[i]) && SeqAt(rows, j) == k
    decreases i
  {
    if k == SeqAt(rows, i) {
      assert SeqAt(rows, i) == k;
    } else {
      NumberedDense(rows, i - 1, k);
      var j :| 0 <= j <= i - 1 && SameGroup(rows[j], rows[i - 1]) && SeqAt(rows, j) == k;
      assert SameGroup(rows[j], rows[i]);
    }
  }

  /** Numbering changes only `seq`, and leaves no row at 0. */
  lemma NumberedKeepsRows(rows: seq<Picture>)
    ensures forall i :: 0 <= i < |rows| ==>
      Numbered(rows)[i].(seqNo := rows[i].seqNo) == rows[i] && Numbered(rows)[i].seqNo >= 1
    ensures !HasUnnumbered(Numbered(rows))
  {
  }

  /** The result of the numbering step as a whole. */
  function InitSeq(rows: seq<Picture>): (r: seq<Picture>)
    ensures |r| == |rows|
    ensures !HasUnnumbered(r)
    ensures !HasUnnumbered(rows) ==> r == rows
  {
    NumberedKeepsRows(rows);
    if HasUnnumbered(rows) then Numbered(rows) else rows
  }

  /** Running the mutation again renumbers nothing. */
  lemma InitSeqIdempotent(rows: seq<Picture>)
    ensures InitSeq(InitSeq(rows)) == InitSeq(rows)
  {
    NumberedKeepsRows(rows);
  }

  /** The loop: `a` holds the pictures in query order; every row is updated
      in place with its number. */
  method InitPictureOrder(a: array<Picture>)
    modifies a
    ensures a[..] == InitSeq(old(a[..]))
  {
    ghost var rows := a[..];
    CountUnnumberedPositive(rows);
    if CountUnnumbered(a[..]) == 0 {
      return;
    }
    var prevType: int := -1;
    var prevId: int := -1;
    var next: int := 0;
    var i := 0;
    while i < a.Length
      invariant 0 <= i <= a.Length
      invariant forall k :: 0 <= k < i ==> a[k] == Numbered(rows)[k]
      invariant forall k :: i <= k < a.Length ==> a[k] == rows[k]
      invariant i == 0 ==> prevType == -1 && prevId == -1
      invariant i > 0 ==> prevType == rows[i - 1].objectType && prevId == rows[i - 1].objectId &&
                          next == SeqAt(rows, i - 1) + 1
    {
      var r := a[i];
      if r.objectType != prevType || r.objectId != prevId {
        next := 1;
      }
      a[i] := r.(seqNo := next);
      next := next + 1;
      prevType := r.objectType;
      prevId := r.objectId;
      i := i + 1;
    }
    assert a[..] == Numbered(rows);
  }
}
