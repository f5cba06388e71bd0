/**
  The growable statement vector of a function body (`block.stmts`),
  which the macro changes in place with a single insertion.
 */
module StmtVectors {
  import opened Syntax

  /**
    A sequence that agrees with `before` below `index`, holds `x` at
    `index` and holds `before` shifted by one above it is `before` with
    `x` inserted at `index`.
   */
  lemma InsertedElementwise(before: seq<Stmt>, after: seq<Stmt>, index: nat, x: Stmt)
    requires index <= |before| && |after| == |before| + 1 && after[index] == x
    requires forall k :: 0 <= k < index ==> after[k] == before[k]
    requires forall k :: index <= k < |before| ==> after[k + 1] == before[k]
    ensures after == before[..index] + [x] + before[index..]
  {
  }

  /**
    A vector of statements: the first `len` cells of `buf` hold the
    statements in order; the rest is spare capacity.
   */
  class StmtVec {
    var buf: array<Stmt>
    var len: nat

    ghost predicate Valid()
      reads this
    {
      len <= buf.Length
    }

    /** The statements the vector holds, in order. */
    ghost function Contents(): seq<Stmt>
      reads this, buf
      requires Valid()
    {
      buf[..len]
    }

    /** A vector holding exactly `stmts`, with no spare capacity. */
    constructor FromSeq(stmts: seq<Stmt>)
      ensures Valid() && fresh(buf)
      ensures Contents() == stmts
    {
      buf := new Stmt[|stmts|](i requires 0 <= i < |stmts| => stmts[i]);
      len := |stmts|;
    }

    /**
      Makes room for one more statement: when the vector is full its
      statements are copied into a larger, fresh array.
     */
    method Reserve()
      requires Valid()
      modifies this
      ensures Valid() && len < buf.Length
      ensures buf == old(buf) || fresh(buf)
      ensures len == old(len) && Contents() == old(Contents())
    {
      if len == buf.Length {
        var bigger := new Stmt[2 * buf.Length + 1];
        var i := 0;
        while i < len
          invariant 0 <= i <= len < bigger.Length
          invariant forall j :: 0 <= j < i ==> bigger[j] == buf[j]
          modifies bigger
        {
          bigger[i] := buf[i];
          i := i + 1;
        }
        assert bigger[..len] == buf[..len];
        buf := bigger;
      }
    }

    /**
      Moves the statements from `index` on one place to the right, into
      the spare cell after the last one, working from the back.
     */
    method ShiftRight(index: nat)
      requires Valid() && index <= len < buf.Length
      modifies buf
      ensures forall j :: 0 <= j < index ==> buf[j] == old(buf[j])
      ensures forall j :: index < j <= len ==> buf[j] == old(buf[j - 1])
    {
      var k := len;
      while k > index
        invariant index <= k <= len
        invariant forall j :: 0 <= j < k ==> buf[j] == old(buf[j])
        invariant forall j :: k < j <= len ==> buf[j] == old(buf[j - 1])
      {
        buf[k] := buf[k - 1];
        k := k - 1;
      }
    }

    /**
      Inserts `x` at position `index`, shifting every statement from
      `index` on one place to the right. The caller must not insert
      past the end. A full vector is reallocated first, so `buf` is
      either the old array or a fresh one.
     */
    method Insert(index: nat, x: Stmt)
      requires Valid() && index <= len
      modifies this, buf
      ensures Valid()
      ensures buf == old(buf) || fresh(buf)
      ensures len == old(len) + 1
      ensures Contents()[index] == x
      ensures forall k :: 0 <= k < index ==> Contents()[k] == old(Contents())[k]
      ensures forall k :: index <= k < old(len) ==> Contents()[k + 1] == old(Contents())[k]
      ensures Contents() == old(Contents())[..index] + [x] + old(Contents())[index..]
    {
      ghost var before := Contents();
      Reserve();
      ShiftRight(index);
      buf[index] := x;
      len := len + 1;
      InsertedElementwise(before, Contents(), index, x);
    }
  }
}
