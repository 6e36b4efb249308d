/** The interactive session (chatLoop) as a specification over the lines
    the user types: it stops at the first line that lower-cases to "quit",
    hands every other line whole to the query negotiation `respond`, and
    ends at the first query that fails, since the failure is caught
    outside the loop. */
module Session {

  import opened Wrappers
  import opened Text
  import opened Protocol

  const Sentinel := "quit"

  /** `inputMessage.toLowerCase() === "quit"`: only a four-character line
      can be the sentinel, and the sentinel itself and its upper-case
      spelling are. */
  predicate IsQuit(input: string): (r: bool)
    ensures r ==> |input| == 4
    ensures input == Sentinel || input == "QUIT" ==> r
  {
    ToLower(input) == Sentinel
  }

  /** The sentinel is "quit" in any mix of upper and lower case, and
      nothing else. */
  lemma QuitSpellings(input: string)
    ensures IsQuit(input) <==>
      && |input| == 4
      && (input[0] == 'q' || input[0] == 'Q')
      && (input[1] == 'u' || input[1] == 'U')
      && (input[2] == 'i' || input[2] == 'I')
      && (input[3] == 't' || input[3] == 'T')
  {
    var lower := ToLower(input);
    if |input| == 4 {
      assert lower == [lower[0], lower[1], lower[2], lower[3]];
    }
    if IsQuit(input) {
      assert lower[0] == 'q' && lower[1] == 'u' && lower[2] == 'i' && lower[3] == 't';
    }
  }

  /** How a session ends: the sentinel, the end of input, or the failure
      of a query. */
  datatype End = Quit | InputClosed | Aborted(failure: Failure)

  /** The queries handed over, the answers shown, and how the session
      ended. */
  datatype Transcript = Transcript(queries: seq<string>, shown: seq<string>, end: End)

  /** The session over the given input lines; `respond` answers one query.
      The queries are the first lines typed, in order. */
  function Chat(inputs: seq<string>, respond: string -> Result<string, Failure>): (r: Transcript)
    ensures r.queries <= inputs
  {
    if inputs == [] then Transcript([], [], InputClosed)
    else if IsQuit(inputs[0]) then Transcript([], [], Quit)
    else
      match respond(inputs[0])
      case Err(f) => Transcript([inputs[0]], [], Aborted(f))
      case Ok(text) =>
        var rest := Chat(inputs[1..], respond);
        Transcript([inputs[0]] + rest.queries, [text] + rest.shown, rest.end)
  }

  /** The session after its first line: it ends at the sentinel, ends
      with the failure of the first query, or goes on after its answer. */
  lemma ChatNext(inputs: seq<string>, respond: string -> Result<string, Failure>)
    requires inputs != []
    ensures IsQuit(inputs[0]) ==> Chat(inputs, respond) == Transcript([], [], Quit)
    ensures !IsQuit(inputs[0]) && respond(inputs[0]).Err? ==>
      Chat(inputs, respond) == Transcript([inputs[0]], [], Aborted(respond(inputs[0]).error))
    ensures !IsQuit(inputs[0]) && respond(inputs[0]).Ok? ==>
      var rest := Chat(inputs[1..], respond);
      Chat(inputs, respond) == Transcript([inputs[0]] + rest.queries, [respond(inputs[0]).value] + rest.shown, rest.end)
  {
  }

  /** The shape of a transcript over the given lines: the queries are the
      lines typed before the session ended, each whole and none of them
      the sentinel; the session ends at the sentinel, at the end of input,
      or at the first query that fails; every answer shown is the answer
      to the query at the same place. */
  predicate Shaped(inputs: seq<string>, respond: string -> Result<string, Failure>, t: Transcript)
  {
    && |t.queries| <= |inputs|
    && t.queries == inputs[..|t.queries|]
    && (forall i :: 0 <= i < |t.queries| ==> !IsQuit(t.queries[i]))
    && (t.end == Quit ==> |t.queries| < |inputs| && IsQuit(inputs[|t.queries|]))
    && (t.end == InputClosed ==> |t.queries| == |inputs|)
    && (t.end.Aborted? ==> t.queries != [] && respond(t.queries[|t.queries| - 1]) == Err(t.end.failure))
    && |t.shown| == (if t.end.Aborted? then |t.queries| - 1 else |t.queries|)
    && (forall i :: 0 <= i < |t.shown| ==> respond(t.queries[i]) == Ok(t.shown[i]))
  }

  /** A query that is answered, put in front of a well-shaped rest, gives
      a well-shaped transcript over one more line. */
  lemma ShapedCons(inputs: seq<string>, respond: string -> Result<string, Failure>, text: string, rest: Transcript)
    requires inputs != [] && !IsQuit(inputs[0]) && respond(inputs[0]) == Ok(text)
    requires Shaped(inputs[1..], respond, rest)
    ensures Shaped(inputs, respond, Transcript([inputs[0]] + rest.queries, [text] + rest.shown, rest.end))
  {
    var t := Transcript([inputs[0]] + rest.queries, [text] + rest.shown, rest.end);
    assert t.queries == inputs[..|t.queries|] by {
      assert inputs == [inputs[0]] + inputs[1..];
    }
    forall i | 0 <= i < |t.shown|
      ensures respond(t.queries[i]) == Ok(t.shown[i])
    {
      if i > 0 {
        assert t.queries[i] == rest.queries[i - 1] && t.shown[i] == rest.shown[i - 1];
      }
    }
    if t.end.Aborted? {
      assert t.queries[|t.queries| - 1] == rest.queries[|rest.queries| - 1];
    }
  }

  /** Every session has that shape. */
  lemma {:induction false} ChatShape(inputs: seq<string>, respond: string -> Result<string, Failure>)
    ensures Shaped(inputs, respond, Chat(inputs, respond))
  {
    if inputs != [] && !IsQuit(inputs[0]) && respond(inputs[0]).Ok? {
      ChatShape(inputs[1..], respond);
      ShapedCons(inputs, respond, respond(inputs[0]).value, Chat(inputs[1..], respond));
    }
  }

  /** When line k is the first "quit" and every earlier query succeeds,
      the session hands exactly the earlier lines over, in order, and
      ends at the sentinel. */
  lemma {:induction false} StopsAtFirstQuit(inputs: seq<string>, k: nat, respond: string -> Result<string, Failure>)
    requires k < |inputs| && IsQuit(inputs[k])
    requires forall i :: 0 <= i < k ==> !IsQuit(inputs[i]) && respond(inputs[i]).Ok?
    ensures Chat(inputs, respond).end == Quit
    ensures Chat(inputs, respond).queries == inputs[..k]
  {
    if k > 0 {
      StopsAtFirstQuit(inputs[1..], k - 1, respond);
      assert inputs[..k] == [inputs[0]] + inputs[1..][..k - 1];
    }
  }
}
