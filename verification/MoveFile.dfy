/** Moving a file by copying it in pieces, with reads and writes of any length. */
module MoveFiles {

  import opened PowerTypes

  const BUFFER_SIZE: nat := 1024

  class File {
    var present: bool
    var content: seq<byte>
    var position: nat
    const canOpen: bool       // the environment's answers to Open, Create and Destroy
    const canCreate: bool
    const canDestroy: bool
    const readsFail: bool     // whether a read may stop before the end of the file
    ghost var refused: nat    // what happened: how many writes took nothing,
    ghost var ended: bool     // and whether a read since the file was opened gave nothing

    constructor (present: bool, content: seq<byte>, canOpen: bool, canCreate: bool, canDestroy: bool, readsFail: bool)
      ensures this.present == present && this.content == content
    {
      this.present, this.content, this.position := present, content, 0;
      this.canOpen, this.canCreate, this.canDestroy, this.readsFail := canOpen, canCreate, canDestroy, readsFail;
      this.refused, this.ended := 0, false;
    }

    ghost predicate Valid()
      reads this
    {
      position <= |content|
    }

    method Open() returns (ok: bool)
      modifies this`position, this`ended
      ensures ok == canOpen
      ensures ok ==> position == 0 && !ended
      ensures !ok ==> position == old(position)
    {
      ok := canOpen;
      if ok {
        position, ended := 0, false;
      }
    }

    method Create() returns (ok: bool)
      modifies this
      ensures ok == canCreate && refused == old(refused)
      ensures ok ==> present && content == [] && position == 0
      ensures !ok ==> present == old(present) && content == old(content) && position == old(position)
    {
      ok := canCreate;
      if ok {
        present, content, position := true, [], 0;
      }
    }

    /** Any non-empty piece of what is left; nothing only at the end, unless reads fail. */
    method Read(buffer: array<byte>, capacity: nat) returns (n: nat)
      requires Valid() && 0 < capacity <= buffer.Length
      modifies buffer, this`position, this`ended
      ensures Valid() && position == old(position) + n && n <= capacity
      ensures ended == (old(ended) || n == 0)
      ensures buffer[..n] == content[old(position)..position]
      ensures n == 0 && !readsFail ==> position == |content|
    {
      var left := |content| - position;
      n :| 0 <= n <= left && n <= capacity && (n == 0 ==> left == 0 || readsFail);
      for i := 0 to n
        invariant position == old(position) && content == old(content) && n <= |content| - position && ended == old(ended)
        invariant forall j :: 0 <= j < i ==> buffer[j] == content[position + j]
      {
        buffer[i] := content[position + i];
      }
      assert buffer[..n] == content[position..position + n];
      position := position + n;
      ended := ended || n == 0;
    }

    /** Any part of the piece, or nothing. */
    method Write(piece: seq<byte>) returns (n: nat)
      modifies this`content, this`refused
      ensures n <= |piece| && content == old(content) + piece[..n]
      ensures refused == old(refused) + if n == 0 then 1 else 0
    {
      n :| 0 <= n <= |piece|;
      content := content + piece[..n];
      refused := refused + if n == 0 then 1 else 0;
    }

    method Destroy()
      modifies this`present
      ensures present == (old(present) && !canDestroy)
    {
      present := present && !canDestroy;
    }
  }

  /** Writes one buffer out, in as many pieces as it takes: fails exactly if a write took nothing. */
  method WriteOut(to: File, piece: seq<byte>) returns (ok: bool)
    requires piece != []
    modifies to`content, to`refused
    ensures ok <==> to.refused == old(to.refused)
    ensures ok ==> to.content == old(to.content) + piece
    ensures !ok ==> to.content < old(to.content) + piece
  {
    ok := true;
    var done := 0;
    while done < |piece| && ok
      invariant 0 <= done <= |piece|
      invariant to.content == old(to.content) + piece[..done]
      invariant to.refused == old(to.refused) + (if ok then 0 else 1) && (!ok ==> done < |piece|)
      decreases |piece| - done, ok
    {
      var count := to.Write(piece[done..]);
      if count == 0 {
        ok := false;
      } else {
        done := done + count;
      }
    }
  }

  /** Succeeds exactly if the source exists, the destination does not, the one could be opened and
      the other created, and no write took nothing. Success: the destination holds what was read of
      the source until a read gave nothing, which is all of it unless a read failed, and the source
      is gone if it can be deleted. Failure: the source is as it was, and so is the destination, or
      the partial one made here is gone if it can be deleted. The two may be the same file. */
  method MoveFile(from: File, to: File) returns (result: bool)
    modifies from, to
    ensures from.content == old(from.content) || (from == to)
    ensures result <==>
            old(from.present) && !old(to.present) && from.canOpen && to.canCreate && to.refused == old(to.refused)
    ensures result ==>
              && from.ended && from.Valid()
              && (from.present <==> !from.canDestroy) && to.present
              && to.content == from.content[..from.position]
              && (to.content == old(from.content) <==> from.position == |from.content|)
              && (!from.readsFail ==> to.content == old(from.content))
    ensures !result ==>
              && from.present == old(from.present) && from.content == old(from.content)
              && (old(to.present) ==> to.present && to.content == old(to.content))
              && (!old(to.present) && to.present ==> !to.canDestroy)
  {
    result := false;
    if from.present && !to.present {
      var open := from.Open();
      if open {
        result := to.Create();
      }
    }
    if result {
      var buffer := new byte[BUFFER_SIZE](_ => 0);
      var more := true;
      while more && result
        invariant from != to && fresh(buffer)
        invariant from.Valid() && from.content == old(from.content) && from.present == old(from.present)
        invariant to.present
        invariant result ==> to.content == from.content[..from.position]
        invariant result <==> to.refused == old(to.refused)
        invariant !more ==> from.ended
        invariant !more && !from.readsFail ==> from.position == |from.content|
        decreases |from.content| - from.position, more, result
      {
        var len := from.Read(buffer, BUFFER_SIZE);
        if len == 0 {
          more := false;
        } else {
          result := WriteOut(to, buffer[..len]);
        }
      }
      if result {
        from.Destroy();
      } else {
        to.Destroy();
      }
    }
  }
}
