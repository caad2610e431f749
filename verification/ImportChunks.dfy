/**
 * Staging an import and taking it up chunk by chunk (backend/modules/inventory/import.service.js,
 * backend/models/ImportRow.js). Chunk numbers are fixed at staging; the query that takes up work is
 * limited to one chunk's size.
 */
module ImportChunks {

  const CHUNK_SIZE: int := 500

  datatype Status = Pending | Processed | Failed | Skipped

  /** How many of the first n rows are valid. */
  function Rank(valid: seq<bool>, n: nat): (r: nat)
    requires n <= |valid|
    ensures r <= n
  {
    if n == 0 then 0 else Rank(valid, n - 1) + if valid[n - 1] then 1 else 0
  }

  /** The chunk of a valid row: each chunk takes CHUNK_SIZE valid rows. */
  function ChunkOf(valid: seq<bool>, i: nat): nat
    requires i < |valid|
  {
    Rank(valid, i) / CHUNK_SIZE
  }

  ghost function ValidBefore(valid: seq<bool>, n: nat): set<nat>
    requires n <= |valid|
  {
    set i: nat | i < n && valid[i]
  }

  /** A row is in the chunk that holds as many full chunks before it as the valid rows before it fill. */
  lemma {:induction false} ChunkCountsRows(valid: seq<bool>, i: nat)
    requires i < |valid|
    ensures 500 * ChunkOf(valid, i) <= |ValidBefore(valid, i)| < 500 * (ChunkOf(valid, i) + 1)
  {
    RankCounts(valid, i);
  }

  lemma {:induction false} RankCounts(valid: seq<bool>, n: nat)
    requires n <= |valid|
    ensures Rank(valid, n) == |ValidBefore(valid, n)|
  {
    if n > 0 {
      RankCounts(valid, n - 1);
      assert ValidBefore(valid, n) == ValidBefore(valid, n - 1) + if valid[n - 1] then {n - 1} else {};
    }
  }

  lemma {:induction false} RankGrows(valid: seq<bool>, i: nat, j: nat)
    requires i <= j <= |valid|
    ensures Rank(valid, i) <= Rank(valid, j) && (i < j && valid[i] ==> Rank(valid, i) < Rank(valid, j))
  {
    if i < j {
      RankGrows(valid, i, j - 1);
    }
  }

  lemma {:induction false} RankOfPrefix(valid: seq<bool>, k: nat, n: nat)
    requires n <= k <= |valid|
    ensures Rank(valid[..k], n) == Rank(valid, n)
  {
    if n > 0 {
      RankOfPrefix(valid, k, n - 1);
    }
  }

  /** The staging loop: `chunkIndex` from the running count, `chunksTotal` from the final one. */
  method Stage(valid: seq<bool>) returns (chunkIndex: seq<int>, chunksTotal: nat, status: seq<Status>)
    ensures |chunkIndex| == |status| == |valid|
    ensures forall i :: 0 <= i < |valid| ==> status[i] == if valid[i] then Pending else Skipped
    ensures forall i :: 0 <= i < |valid| && valid[i] ==> chunkIndex[i] == ChunkOf(valid, i) < chunksTotal
    ensures chunksTotal == 0 <==> Rank(valid, |valid|) == 0
    ensures chunksTotal > 0 ==> CHUNK_SIZE * (chunksTotal - 1) < Rank(valid, |valid|) <= CHUNK_SIZE * chunksTotal
  {
    chunkIndex, status := [], [];
    var validRows: nat := 0;
    for n := 0 to |valid|
      invariant validRows == Rank(valid, n)
      invariant |chunkIndex| == |status| == n
      invariant forall i :: 0 <= i < n ==> status[i] == if valid[i] then Pending else Skipped
      invariant forall i :: 0 <= i < n && valid[i] ==> chunkIndex[i] == ChunkOf(valid, i)
    {
      if valid[n] { validRows := validRows + 1; }
      chunkIndex := chunkIndex + [(validRows - 1) / CHUNK_SIZE];
      status := status + [if valid[n] then Pending else Skipped];
    }
    chunksTotal := (validRows + CHUNK_SIZE - 1) / CHUNK_SIZE;
    forall i | 0 <= i < |valid| && valid[i] ensures ChunkOf(valid, i) < chunksTotal {
      RankGrows(valid, i, |valid|);
    }
  }

  // ---------------------------------------------------------------------------------------
  // Taking up the next chunk
  // ---------------------------------------------------------------------------------------

  /** The pending rows in file order. */
  function PendingRows(status: seq<Status>): (p: seq<nat>)
    ensures forall i :: 0 <= i < |p| ==> p[i] < |status|
  {
    if status == [] then []
    else
      var n := |status| - 1;
      PendingRows(status[..n]) + if status[n] == Pending then [n] else []
  }

  lemma {:induction false} PendingRowsAre(status: seq<Status>)
    ensures forall i :: i in PendingRows(status) <==> 0 <= i < |status| && status[i] == Pending
    ensures forall k, l :: 0 <= k < l < |PendingRows(status)| ==> PendingRows(status)[k] < PendingRows(status)[l]
  {
    if status != [] {
      PendingRowsAre(status[..|status| - 1]);
    }
  }

  function InChunk(rows: seq<nat>, valid: seq<bool>, c: int): (r: seq<nat>)
    requires forall i :: 0 <= i < |rows| ==> rows[i] < |valid|
    ensures forall i :: i in r <==> i in rows && ChunkOf(valid, i) == c
  {
    if rows == [] then []
    else
      var n := |rows| - 1;
      InChunk(rows[..n], valid, c) + if ChunkOf(valid, rows[n]) == c then [rows[n]] else []
  }

  predicate Staged(valid: seq<bool>, status: seq<Status>) {
    |status| == |valid| && forall i :: 0 <= i < |valid| ==> (status[i] == Skipped <==> !valid[i])
  }

  /** The rows one pass of the run takes up: a page of pending rows, cut to the chunk of the first. */
  function TakeUp(valid: seq<bool>, status: seq<Status>, limit: nat): seq<nat>
    requires Staged(valid, status)
  {
    var pending := PendingRows(status);
    var page := if |pending| <= limit then pending else pending[..limit];
    if page == [] then [] else InChunk(page, valid, ChunkOf(valid, page[0]))
  }

  /** Rows in increasing order climb at least one rank each. */
  lemma {:induction false} RanksClimb(valid: seq<bool>, rows: seq<nat>, k: nat, l: nat)
    requires forall i :: 0 <= i < |rows| ==> rows[i] < |valid| && valid[rows[i]]
    requires forall i, j :: 0 <= i < j < |rows| ==> rows[i] < rows[j]
    requires k <= l < |rows|
    ensures Rank(valid, rows[l]) >= Rank(valid, rows[k]) + (l - k)
    decreases l - k
  {
    if k < l {
      RankGrows(valid, rows[l - 1], rows[l]);
      RanksClimb(valid, rows, k, l - 1);
    }
  }

  /** A chunk has no more valid rows than its size, so its pending rows stand within that many places of its first. */
  lemma {:induction false} ChunkFits(valid: seq<bool>, rows: seq<nat>, k: nat, l: nat)
    requires forall i :: 0 <= i < |rows| ==> rows[i] < |valid| && valid[rows[i]]
    requires forall i, j :: 0 <= i < j < |rows| ==> rows[i] < rows[j]
    requires k <= l < |rows| && ChunkOf(valid, rows[k]) == ChunkOf(valid, rows[l])
    ensures l - k < CHUNK_SIZE
  {
    RanksClimb(valid, rows, k, l);
  }

  /**
   * One pass takes up every row still pending in the first unfinished chunk and nothing else, as long
   * as the limit is at least the size the file was staged with.
   */
  lemma {:induction false} WholeChunkTakenUp(valid: seq<bool>, status: seq<Status>, limit: nat)
    requires Staged(valid, status) && limit >= CHUNK_SIZE
    ensures var pending, taken := PendingRows(status), TakeUp(valid, status, limit);
            && (taken == [] <==> pending == [])
            && (pending != [] ==>
                  forall i :: i in taken <==> 0 <= i < |valid| && status[i] == Pending && ChunkOf(valid, i) == ChunkOf(valid, pending[0]))
  {
    hide Rank, ChunkOf, PendingRows, InChunk;
    var pending := PendingRows(status);
    PendingRowsAre(status);
    if pending != [] {
      var c := ChunkOf(valid, pending[0]);
      var page := if |pending| <= limit then pending else pending[..limit];
      assert page[0] == pending[0];
      assert forall k :: 0 <= k < |pending| ==> pending[k] in pending;
      forall i | i in pending && ChunkOf(valid, i) == c ensures i in page {
        var l :| 0 <= l < |pending| && pending[l] == i;
        ChunkFits(valid, pending, 0, l);
        assert page[l] == i;
      }
      assert forall i :: i in page ==> i in pending;
      assert page[0] in InChunk(page, valid, c);
    }
  }

  // ---------------------------------------------------------------------------------------
  // What becomes of one row
  // ---------------------------------------------------------------------------------------

  datatype Judged = Posts(kind: LineKind, quantity: int, before: int, after: int) | NoChange | Refused

  datatype LineKind = OpeningLine | ReceiptLine | AdjustmentLine | CountLine

  /** A master sheet's quantity is an amount coming in; a negative one deducts. */
  function JudgeIntake(quantity: int, isNew: bool, before: int, reserved: int): Judged {
    var after := before + quantity;
    if quantity == 0 then NoChange
    else if quantity < 0 && ((isNew && before == 0) || after < 0 || after < reserved) then Refused
    else Posts(if quantity < 0 then AdjustmentLine else if isNew && before == 0 then OpeningLine else ReceiptLine,
              quantity, before, after)
  }

  /** A fresh-inventory sheet's quantity is what the shelf holds; the difference is posted. */
  function JudgeFresh(target: int, before: int, reserved: int): Judged {
    if target == before then NoChange
    else if target < reserved then Refused
    else Posts(CountLine, target - before, before, target)
  }
}
