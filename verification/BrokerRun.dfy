/**
 The collector loop of `Run` (pkg/op/broker_run.go) on its own: it reads the frames of a console one after another
 until the control frame of its exec, the end of its context, or the end of the console.
 */
module BrokerRun {
  import opened BrokerSystem

  /** The broker's answer to Exec. */
  datatype Answer = Granted(exec: nat) | Refusal | NoBroker

  /** What the caller's select sees once the frames run out. */
  datatype Ending = StillOpen | ContextDone | ConsoleEnd

  /** The step a waiting call takes in the console's transition system, repeated until it returns. */
  function Fold(call: Call, frames: seq<Frame>): Call
    decreases |frames|
  {
    if frames == [] || !call.Collecting? then call
    else Fold(Collect(call.outcome, frames[0]), frames[1..])
  }

  function Empty(exec: nat): Call { Collecting(Outcome(exec, 0, [], [], "")) }

  lemma ReadsOne(frames: seq<Frame>, n: nat, e: nat)
    requires n < |frames|
    ensures forall pipe :: Said(frames[..n + 1], e, pipe) == Said(frames[..n], e, pipe) + Piece(frames[n], e, pipe)
    ensures Closed(frames[..n + 1], e) == (Closed(frames[..n], e) || IsControl(frames[n], e))
  {
    assert frames[..n + 1] == frames[..n] + [frames[n]];
    forall pipe ensures Said(frames[..n + 1], e, pipe) == Said(frames[..n], e, pipe) + Piece(frames[n], e, pipe) {
      SaidMore(frames[..n], frames[n], e, pipe);
    }
    SaidMore(frames[..n], frames[n], e, Stdout);
  }

  /**
   `frames` are what the console sent while the call was waiting and `ending` is what came then; `consumed` counts the
   frames read.  What is collected is what those frames said, the narrator wrote exactly the narration, and the call
   ends without error at the first control frame of its exec and nowhere else.
   */
  method Run(answer: Answer, frames: seq<Frame>, ending: Ending, narrates: bool)
    returns (call: Call, narrated: seq<byte>, consumed: nat)
    ensures !answer.Granted? ==> call == Done(Outcome(0, 0, [], [], ""), Refused) && narrated == [] && consumed == 0
    ensures answer.Granted? ==>
      && !call.Listening? && call.outcome.exec == answer.exec && consumed <= |frames|
      && call.outcome.output == Said(frames[..consumed], answer.exec, Stdout)
      && call.outcome.narration == Said(frames[..consumed], answer.exec, Stderr)
      && narrated == (if narrates then call.outcome.narration else [])
    ensures answer.Granted? && Closed(frames, answer.exec) ==>
      && call == Done(call.outcome, NoError) && 0 < consumed
      && !Closed(frames[..consumed - 1], answer.exec)
      && frames[consumed - 1].exec == answer.exec
      && frames[consumed - 1].payload == Control(call.outcome.exitStatus, call.outcome.error)
    ensures answer.Granted? && (Closed(frames, answer.exec) || ending.StillOpen?) ==>
      call == Fold(Empty(answer.exec), frames)
    ensures answer.Granted? && !Closed(frames, answer.exec) ==>
      && consumed == |frames| && call.outcome.exitStatus == 0 && call.outcome.error == ""
      && call == match ending
                 case StillOpen => Collecting(call.outcome)
                 case ContextDone => Done(call.outcome, ContextEnded)
                 case ConsoleEnd => Done(call.outcome, ConsoleClosed)
  {
    narrated, consumed := [], 0;
    if !answer.Granted? {
      call := Done(Outcome(0, 0, [], [], ""), Refused);
      return;
    }
    hide Said, Closed;
    var o := Outcome(answer.exec, 0, [], [], "");
    SilentSaysNothing(frames[..0], answer.exec);
    while consumed < |frames|
      invariant consumed <= |frames|
      invariant o.exec == answer.exec && o.exitStatus == 0 && o.error == ""
      invariant o.output == Said(frames[..consumed], answer.exec, Stdout)
      invariant o.narration == Said(frames[..consumed], answer.exec, Stderr)
      invariant narrated == (if narrates then o.narration else [])
      invariant !Closed(frames[..consumed], answer.exec)
      invariant Fold(Empty(answer.exec), frames) == Fold(Collecting(o), frames[consumed..])
    {
      var frame := frames[consumed];
      ReadsOne(frames, consumed, answer.exec);
      assert frames[consumed..][0] == frame && frames[consumed..][1..] == frames[consumed + 1..];
      consumed := consumed + 1;
      if frame.exec != answer.exec {
        continue;
      }
      match frame.payload
      case Narration(_, bytes) =>
        o := o.(narration := o.narration + bytes);
        if narrates {
          narrated := narrated + bytes;
        }
      case Output(bytes) =>
        o := o.(output := o.output + bytes);
      case Control(status, error) =>
        o := o.(exitStatus := status, error := error);
        ControlAmong(frames, answer.exec, consumed - 1);
        call := Done(o, NoError);
        return;
    }
    assert frames[..consumed] == frames;
    match ending
    case StillOpen => call := Collecting(o);
    case ContextDone => call := Done(o, ContextEnded);
    case ConsoleEnd => call := Done(o, ConsoleClosed);
  }
}
