/**
 * A TCP stream as the chat code sees it. Reads are a transcript: each read call
 * returns the next recorded result (a chunk of text, or an I/O error), and a
 * read past the end of the transcript returns 0 bytes, which is how a closed
 * peer reads. Writes are scripted too: each write takes the next outcome from
 * `outcomes` (done, or failed with an error kind) and succeeds once the script
 * is used up; what was written successfully is appended to the trace
 * `written`. A shutdown has a scripted outcome of its own.
 */
module Transport {

  /** The distinction the callers draw between `std::io::ErrorKind` values. */
  datatype ErrorKind = WouldBlock | OtherKind

  datatype ReadResult = Data(text: string) | Failed(kind: ErrorKind)

  /** What a write or a shutdown returns: `Ok(())`, or an I/O error of some kind. */
  datatype IoOutcome = Done | Fails(kind: ErrorKind)

  /** The abstract state of a stream. */
  datatype Wire = Wire(incoming: seq<ReadResult>, outcomes: seq<IoOutcome>, written: seq<string>, isShutdown: bool,
                       shutdownOutcome: IoOutcome)

  /** One read call: the next transcript entry, or 0 bytes once the transcript is used up. */
  function ReadSpec(w: Wire): (Wire, ReadResult) {
    if w.incoming == [] then (w, Data(""))
    else (w.(incoming := w.incoming[1..]), w.incoming[0])
  }

  /** One write call; a shut-down stream refuses every write, with an error other than `WouldBlock`. */
  function WriteSpec(w: Wire, data: string): (Wire, IoOutcome) {
    if w.isShutdown then (w, Fails(OtherKind))
    else
      var out := if w.outcomes == [] then Done else w.outcomes[0];
      var rest := if w.outcomes == [] then [] else w.outcomes[1..];
      (w.(outcomes := rest, written := if out == Done then w.written + [data] else w.written), out)
  }

  /** One shutdown call: on success the stream is shut down, on failure it is left as it was. */
  function ShutdownSpec(w: Wire): (Wire, IoOutcome) {
    if w.shutdownOutcome == Done then (w.(isShutdown := true), Done) else (w, w.shutdownOutcome)
  }

  /** Writes `lines` in order and stops at the first write that fails (the `?` after each write), returning its error. */
  function WriteUntilFailure(w: Wire, lines: seq<string>): (Wire, IoOutcome)
    decreases |lines|
  {
    if lines == [] then (w, Done)
    else
      var (w', out) := WriteSpec(w, lines[0]);
      if out == Done then WriteUntilFailure(w', lines[1..]) else (w', out)
  }

  /** How many of the next `n` writes succeed before the first failure, on a stream that is not shut down. */
  function SuccessRun(outcomes: seq<IoOutcome>, n: nat): (k: nat)
    ensures k <= n
    ensures k < n ==> k < |outcomes| && outcomes[k].Fails?
    ensures forall i :: 0 <= i < k && i < |outcomes| ==> outcomes[i] == Done
  {
    if n == 0 then 0
    else if outcomes == [] then n
    else if outcomes[0] == Done then 1 + SuccessRun(outcomes[1..], n - 1)
    else 0
  }

  /**
   * A sequence of writes that stops at the first failure puts exactly the lines
   * before that failure on the wire, in order, reads nothing, and reports
   * success exactly when every line went out; a failure is reported with the
   * error of the write that failed.
   */
  lemma {:induction false} WriteUntilFailureWrites(w: Wire, lines: seq<string>)
    requires !w.isShutdown
    ensures var (w', out) := WriteUntilFailure(w, lines);
            var k := SuccessRun(w.outcomes, |lines|);
            && w'.written == w.written + lines[..k]
            && w'.incoming == w.incoming
            && !w'.isShutdown && w'.shutdownOutcome == w.shutdownOutcome
            && (out == Done <==> k == |lines|)
            && (out != Done ==> out == w.outcomes[k])
    decreases |lines|
  {
    if lines == [] {
      assert lines[..0] == [];
    } else {
      var (w1, out1) := WriteSpec(w, lines[0]);
      if out1 == Done {
        WriteUntilFailureWrites(w1, lines[1..]);
        var k1 := SuccessRun(w1.outcomes, |lines| - 1);
        assert SuccessRun(w.outcomes, |lines|) == k1 + 1;
        assert WriteUntilFailure(w, lines) == WriteUntilFailure(w1, lines[1..]);
        if WriteUntilFailure(w1, lines[1..]).1 != Done {
          assert w1.outcomes[k1] == w.outcomes[k1 + 1];
        }
        assert WriteUntilFailure(w, lines).0.written == w1.written + lines[1..][..k1];
        PrefixStep(w.written, lines, k1);
      } else {
        assert SuccessRun(w.outcomes, |lines|) == 0;
        assert lines[..0] == [];
      }
    }
  }

  /** Writing the first line, then a prefix of the rest, writes a prefix of all the lines. */
  lemma PrefixStep(written: seq<string>, lines: seq<string>, k: nat)
    requires k < |lines|
    ensures (written + [lines[0]]) + lines[1..][..k] == written + lines[..k + 1]
  {
    assert lines[..k + 1] == [lines[0]] + lines[1..][..k];
  }

  class Stream {
    var incoming: seq<ReadResult>
    var outcomes: seq<IoOutcome>
    var written: seq<string>
    var isShutdown: bool
    var shutdownOutcome: IoOutcome

    function State(): Wire
      reads this
    {
      Wire(incoming, outcomes, written, isShutdown, shutdownOutcome)
    }

    constructor (incoming: seq<ReadResult>, outcomes: seq<IoOutcome>, shutdownOutcome: IoOutcome)
      ensures State() == Wire(incoming, outcomes, [], false, shutdownOutcome)
    {
      this.incoming := incoming;
      this.outcomes := outcomes;
      this.written := [];
      this.isShutdown := false;
      this.shutdownOutcome := shutdownOutcome;
    }

    method Read() returns (r: ReadResult)
      modifies this
      ensures (State(), r) == ReadSpec(old(State()))
    {
      if incoming == [] {
        r := Data("");
      } else {
        r := incoming[0];
        incoming := incoming[1..];
      }
    }

    method Write(data: string) returns (out: IoOutcome)
      modifies this
      ensures (State(), out) == WriteSpec(old(State()), data)
    {
      if isShutdown {
        return Fails(OtherKind);
      }
      out := if outcomes == [] then Done else outcomes[0];
      if outcomes != [] {
        outcomes := outcomes[1..];
      }
      if out == Done {
        written := written + [data];
      }
    }

    method Shutdown() returns (out: IoOutcome)
      modifies this
      ensures (State(), out) == ShutdownSpec(old(State()))
    {
      out := shutdownOutcome;
      if out == Done {
        isShutdown := true;
      }
    }
  }
}
