/**
 * The console loop of `main`: each line is either the exit command, which
 * ends the session with a farewell, or an utterance, which gets exactly one
 * reply from the handler.
 */
module Session {
  import opened Text
  import opened Dispatcher

  datatype State = Running | Terminated

  /** What the loop prints for one line: "Goodbye!", or the bot's reply. */
  datatype Output = Farewell | Bot(reply: Response)

  /** `user_message.lower() in ["exit", "quit"]`: the whole line, in any case. */
  predicate IsExit(line: string) {
    Lower(line) == "exit" || Lower(line) == "quit"
  }

  /** The outputs for the lines read: replies up to the first exit line, then the farewell. */
  function Transcript(lines: seq<string>, env: Env): seq<Output>
    requires ValidEnv(env)
  {
    if lines == [] then []
    else if IsExit(lines[0]) then [Farewell]
    else [Bot(Answer(lines[0], env))] + Transcript(lines[1..], env)
  }

  /** The transcript ends at the first exit line: replies to every line before it, then the farewell. */
  lemma {:induction false} TranscriptStopsAtExit(lines: seq<string>, k: nat, env: Env)
    requires ValidEnv(env)
    requires k < |lines| && IsExit(lines[k]) && forall j :: 0 <= j < k ==> !IsExit(lines[j])
    ensures |Transcript(lines, env)| == k + 1
    ensures forall j :: 0 <= j < k ==> Transcript(lines, env)[j] == Bot(Answer(lines[j], env))
    ensures Transcript(lines, env)[k] == Farewell
  {
    if k > 0 {
      TranscriptStopsAtExit(lines[1..], k - 1, env);
    }
  }

  /** Without an exit line, every line gets exactly one reply, in order. */
  lemma {:induction false} TranscriptWithoutExit(lines: seq<string>, env: Env)
    requires ValidEnv(env)
    requires forall j :: 0 <= j < |lines| ==> !IsExit(lines[j])
    ensures |Transcript(lines, env)| == |lines|
    ensures forall j :: 0 <= j < |lines| ==> Transcript(lines, env)[j] == Bot(Answer(lines[j], env))
  {
    if lines != [] {
      TranscriptWithoutExit(lines[1..], env);
    }
  }

  /** Lines after the exit line are never read. */
  lemma {:induction false} LinesAfterExitIgnored(lines: seq<string>, more: seq<string>, env: Env)
    requires ValidEnv(env)
    requires exists j :: 0 <= j < |lines| && IsExit(lines[j])
    ensures Transcript(lines + more, env) == Transcript(lines, env)
  {
    if !IsExit(lines[0]) {
      var j :| 0 <= j < |lines| && IsExit(lines[j]);
      assert lines[1..][j - 1] == lines[j];
      LinesAfterExitIgnored(lines[1..], more, env);
      assert (lines + more)[1..] == lines[1..] + more;
    }
  }

  /** "Quit", "EXIT" and "exit" end the session; a longer line does not. */
  lemma ExitExamples()
    ensures IsExit("Quit") && IsExit("EXIT") && IsExit("exit")
    ensures !IsExit("exit now") && !IsExit("quit!")
  {
    assert Lower("Quit") == "quit";
    assert Lower("EXIT") == "exit";
    assert Lower("exit") == "exit";
    assert |Lower("exit now")| == 8 && |Lower("quit!")| == 5;
  }

  /**
   * The `while True` loop of `main` over the lines the user types. It stops
   * at the first exit line, or when there are no more lines, and answers
   * every other line with one call of the handler.
   */
  method RunSession(lines: seq<string>, env: Env) returns (outputs: seq<Output>, state: State, read: nat, handled: nat)
    requires ValidEnv(env)
    ensures outputs == Transcript(lines, env)
    ensures state == Terminated <==> exists j :: 0 <= j < |lines| && IsExit(lines[j])
    ensures read <= |lines| && forall j :: 0 <= j < read - 1 ==> !IsExit(lines[j])
    ensures state == Terminated ==> read > 0 && IsExit(lines[read - 1]) && handled == read - 1
    ensures state == Running ==> read == |lines| && handled == read
    ensures |outputs| == read
  {
    outputs, state, read, handled := [], Running, 0, 0;
    while read < |lines|
      invariant read <= |lines| && handled == read
      invariant forall j :: 0 <= j < read ==> !IsExit(lines[j])
      invariant |outputs| == read
      invariant outputs + Transcript(lines[read..], env) == Transcript(lines, env)
    {
      var line := lines[read];
      ghost var rest := lines[read..];
      assert rest[0] == line && rest[1..] == lines[read + 1..];
      read := read + 1;
      if IsExit(line) {
        assert Transcript(rest, env) == [Farewell];
        outputs := outputs + [Farewell];
        state := Terminated;
        break;
      }
      var response, _ := HandleMessage(line, env);
      assert Transcript(rest, env) == [Bot(response)] + Transcript(lines[read..], env);
      assert outputs + Transcript(rest, env) == (outputs + [Bot(response)]) + Transcript(lines[read..], env);
      outputs := outputs + [Bot(response)];
      handled := handled + 1;
    }
    if state == Running {
      assert lines[read..] == [];
    }
  }
}
