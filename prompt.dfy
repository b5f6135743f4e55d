/** Chat turns, the mode-dependent system directive, and the flattening of
    directive plus history into the single prompt string sent to the model. */
module Prompt {

  datatype Role = User | Assistant

  /** One entry of the message list: `{"role": ..., "content": ...}`. */
  datatype Turn = Turn(role: Role, content: string)

  /** The text the source writes for a role in the prompt and the file. */
  function RoleName(role: Role): (r: string)
    ensures r == "user" <==> role == User
    ensures r == "assistant" <==> role == Assistant
  {
    match role
    case User => "user"
    case Assistant => "assistant"
  }

  /** The directive for the "Coding Copilot" mode, a triple-quoted literal
      that begins and ends with a line break. */
  const CopilotDirective: string :=
    "\nYou are Clawdbot, an elite coding copilot.\nAlways respond with:\n"
    + "- Clean, production-ready code\n- Proper formatting\n"
    + "- Short explanation after code\nSupport Python, JavaScript, C++, SQL.\n"

  /** The directive for every other mode. */
  const AssistantDirective: string := "You are a helpful AI assistant."

  /** `get_system_prompt(mode)`: the copilot text for exactly the mode
      "Coding Copilot", the plain assistant text for any other string. */
  function SystemPrompt(mode: string): (r: string)
    ensures r == CopilotDirective <==> mode == "Coding Copilot"
    ensures r == AssistantDirective <==> mode != "Coding Copilot"
  {
    if mode == "Coding Copilot" then CopilotDirective else AssistantDirective
  }

  /** The line a turn contributes: `f"{role}: {content}\n"`. */
  function Line(t: Turn): string {
    RoleName(t.role) + ": " + t.content + "\n"
  }

  /** The lines of all turns, in list order. */
  function Lines(ts: seq<Turn>): string {
    if ts == [] then [] else Lines(ts[..|ts| - 1]) + Line(ts[|ts| - 1])
  }

  /** The prompt: directive, a line break, one line per turn, and the
      trailing `assistant:` marker with no line break after it. */
  function Assemble(directive: string, ts: seq<Turn>): (p: string)
    ensures |p| >= |directive| + 11
    ensures p[..|directive| + 1] == directive + "\n"
    ensures p[|p| - 10..] == "assistant:"
  {
    directive + "\n" + Lines(ts) + "assistant:"
  }

  /** The prompt-building loop, which grows the string one turn at a time. */
  method BuildPrompt(directive: string, ts: seq<Turn>) returns (prompt: string)
    ensures prompt == Assemble(directive, ts)
  {
    prompt := directive + "\n";
    for i := 0 to |ts|
      invariant prompt == directive + "\n" + Lines(ts[..i])
    {
      assert Lines(ts[..i + 1]) == Lines(ts[..i]) + Line(ts[i]) by {
        assert ts[..i + 1][..i] == ts[..i];
      }
      prompt := prompt + Line(ts[i]);
    }
    assert ts[..|ts|] == ts;
    prompt := prompt + "assistant:";
  }

  /** A turn's line holds its content whole, after `role: ` and before the
      line break. */
  lemma LineShape(t: Turn)
    ensures var r, k := Line(t), |RoleName(t.role)| + 2;
      |r| == k + |t.content| + 1 && r[..k] == RoleName(t.role) + ": "
      && r[k..k + |t.content|] == t.content && r[|r| - 1] == '\n'
  {
  }

  /** Every turn contributes a line of at least seven characters (`user: `
      and the line break around an empty content), and a non-empty history's
      lines end with a line break. */
  lemma {:induction false} LinesLength(ts: seq<Turn>)
    ensures |Lines(ts)| >= 7 * |ts|
    ensures ts != [] ==> Lines(ts)[|Lines(ts)| - 1] == '\n'
    decreases |ts|
  {
    if ts != [] {
      LinesLength(ts[..|ts| - 1]);
      LineShape(ts[|ts| - 1]);
    }
  }

  /** The lines of two consecutive stretches of history are the lines of the
      first followed by the lines of the second. */
  lemma {:induction false} LinesAppend(a: seq<Turn>, b: seq<Turn>)
    ensures Lines(a + b) == Lines(a) + Lines(b)
    decreases |b|
  {
    if b == [] {
      assert a + b == a;
    } else {
      var b', x := b[..|b| - 1], b[|b| - 1];
      assert (a + b)[..|a + b| - 1] == a + b';
      assert (a + b)[|a + b| - 1] == x;
      calc {
        Lines(a + b);
        Lines(a + b') + Line(x);
        { LinesAppend(a, b'); }
        Lines(a) + Lines(b') + Line(x);
        { Associative(Lines(a), Lines(b'), Line(x)); }
        Lines(a) + (Lines(b') + Line(x));
        Lines(a) + Lines(b);
      }
    }
  }

  /** No truncation and no reordering: the prompt is the directive line, the
      lines of the turns before turn `i`, turn `i`'s own line whole, the lines
      of the turns after it, and the marker. */
  lemma LineInPrompt(directive: string, ts: seq<Turn>, i: nat)
    requires i < |ts|
    ensures Assemble(directive, ts)
            == directive + "\n" + Lines(ts[..i]) + Line(ts[i]) + Lines(ts[i + 1..]) + "assistant:"
  {
    var before, t, after := ts[..i], ts[i], ts[i + 1..];
    assert ts == (before + [t]) + after;
    LinesAppend(before + [t], after);
    assert Lines(before + [t]) == Lines(before) + Line(t) by {
      assert (before + [t])[..|before|] == before;
    }
    var d := directive + "\n";
    calc {
      Assemble(directive, ts);
      d + (Lines(before) + Line(t) + Lines(after)) + "assistant:";
      { assert d + (Lines(before) + Line(t) + Lines(after))
               == d + Lines(before) + Line(t) + Lines(after); }
      d + Lines(before) + Line(t) + Lines(after) + "assistant:";
    }
  }

  /** Extending the history extends the prompt: the prompt for `h` without
      its marker is a prefix of the prompt for `h + more`. */
  lemma PromptGrows(directive: string, h: seq<Turn>, more: seq<Turn>)
    ensures var p := Assemble(directive, h);
      var q := Assemble(directive, h + more);
      |p| - 10 <= |q| && q[..|p| - 10] == p[..|p| - 10]
  {
    LinesAppend(h, more);
  }

  /** When the newest turn is the user's input, the prompt ends with the line
      `user: <input>` and then the marker. */
  lemma PromptEndsWithUserTurn(directive: string, h: seq<Turn>, input: string)
    ensures Assemble(directive, h + [Turn(User, input)])
            == directive + "\n" + Lines(h) + "user: " + input + "\n" + "assistant:"
  {
    var t := Turn(User, input);
    assert Lines(h + [t]) == Lines(h) + Line(t) by {
      assert (h + [t])[..|h|] == h;
    }
    var head := directive + "\n" + Lines(h);
    calc {
      Assemble(directive, h + [t]);
      directive + "\n" + (Lines(h) + Line(t)) + "assistant:";
      { Associative(directive + "\n", Lines(h), Line(t)); }
      head + Line(t) + "assistant:";
      head + ("user: " + input + "\n") + "assistant:";
      { Associative(head, "user: " + input, "\n");
        Associative(head, "user: ", input); }
      head + "user: " + input + "\n" + "assistant:";
    }
  }

  lemma Associative(a: string, b: string, c: string)
    ensures a + (b + c) == a + b + c
  {
  }

  /** The worked example: one user turn "hi" under the assistant directive. */
  lemma GreetingPrompt()
    ensures Assemble(AssistantDirective, [Turn(User, "hi")])
            == "You are a helpful AI assistant.\nuser: hi\nassistant:"
  {
    assert [Turn(User, "hi")][..0] == [];
  }
}
