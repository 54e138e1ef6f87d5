/** Writing a whole buffer to a socket or serial port that may accept only part of it at a time. */
module Net {
  import opened Wrappers
  import opened Widths

  datatype WriteError = Closed | Failed(reason: string)

  /** What one write answers: how many bytes it is ready to take, or a failure. */
  datatype WriteEvent = Takes(count: nat) | Refuses(error: WriteError) {
    predicate Progresses() {
      Takes? && count > 0
    }

    /** How the whole call fails when this is the write that stops it. */
    function Stop(): WriteError {
      match this
      case Takes(_) => Closed
      case Refuses(error) => error
    }
  }

  class Writer {
    const script: nat -> WriteEvent
    var pos: nat
    var sent: seq<byte>

    constructor (script: nat -> WriteEvent)
      ensures this.script == script && pos == 0 && sent == []
    {
      this.script := script;
      pos, sent := 0, [];
    }

    /** A write never takes more than it was given. */
    method Write(buf: seq<byte>) returns (count: Result<nat, WriteError>)
      modifies this`pos, this`sent
      ensures pos == old(pos) + 1
      ensures match script(old(pos))
              case Refuses(error) => count == Err(error) && sent == old(sent)
              case Takes(n) => count == Ok(Min(n, |buf|)) && sent == old(sent) + buf[..Min(n, |buf|)]
    {
      var event := script(pos);
      pos := pos + 1;
      match event
      case Refuses(error) =>
        count := Err(error);
      case Takes(n) =>
        count := Ok(Min(n, |buf|));
        sent := sent + buf[..Min(n, |buf|)];
    }

    /**
     * On success the peer got every byte once and in order; on failure it got a proper prefix, and
     * the last write, the only one without progress, says why.
     */
    method WriteAll(buf: seq<byte>) returns (result: Result<(), WriteError>)
      modifies this`pos, this`sent
      ensures old(sent) <= sent <= old(sent) + buf
      ensures result.Ok? <==> sent == old(sent) + buf
      ensures old(pos) <= pos <= old(pos) + |buf| + 1
      ensures forall i | old(pos) <= i < pos - 1 :: script(i).Progresses()
      ensures result.Ok? ==> (pos > old(pos) ==> script(pos - 1).Progresses())
      ensures result.Err? ==> pos > old(pos) && !script(pos - 1).Progresses() && result == Err(script(pos - 1).Stop())
    {
      var written := 0;
      while written < |buf|
        invariant 0 <= written <= |buf|
        invariant sent == old(sent) + buf[..written]
        invariant old(pos) <= pos <= old(pos) + written
        invariant forall i | old(pos) <= i < pos :: script(i).Progresses()
      {
        var count := Write(buf[written..]);
        if count.Err? {
          return Err(count.error);
        }
        if count.value == 0 {
          assert buf[written..][..0] == [];
          return Err(Closed);
        }
        assert buf[..written + count.value] == buf[..written] + buf[written..][..count.value];
        written := written + count.value;
      }
      assert buf[..|buf|] == buf;
      return Ok(());
    }
  }
}
