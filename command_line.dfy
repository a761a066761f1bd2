/**
  The dashboard's command line: the text of the "Commandline" paragraph and
  how keyboard and mouse events edit it.

  The text starts as the prompt ": ". Each event is identified by its termui
  event ID. `<Space>` appends a blank, `<Backspace>` drops the last byte but
  never touches the prompt, `<Enter>` submits the text to the dispatcher and
  resets it to the prompt, mouse events and `<Escape>` change nothing,
  `<C-q>` ends the event loop, and every other ID is appended as it is.

  Go strings are byte strings; here each `char` stands for one byte.
*/
module CommandLine {
  import opened Dispatch

  /** The initial text of the command line, kept in front of every command. */
  const Prompt: string := ": "

  /** The mouse event IDs that the event loop ignores. */
  const MouseIds: set<string> :=
    {"<MouseLeft>", "<MouseRelease>", "<MouseRight>", "<MouseMiddle>", "<MouseWheelUp>", "<MouseWheelDown>"}

  /** Every event ID the event loop handles by a case of its own. */
  const SpecialIds: set<string> :=
    MouseIds + {"<C-q>", "<Escape>", "<Space>", "<Backspace>", "<Enter>"}

  /** An event that falls through to the default case and is typed into the text. */
  predicate Typed(id: string)
  {
    id !in SpecialIds
  }

  /** The text still begins with the prompt. */
  predicate Prompted(text: string)
  {
    |text| >= 2 && text[..2] == Prompt
  }

  /** What an event does beside editing the text. */
  datatype Effect = Continue | Submitted(action: Action) | Quit

  /** The text after one event. */
  function NextText(text: string, id: string): (t: string)
    ensures Prompted(text) ==> Prompted(t)
  {
    match id
    case "<MouseLeft>" => text
    case "<MouseRelease>" => text
    case "<MouseRight>" => text
    case "<MouseMiddle>" => text
    case "<MouseWheelUp>" => text
    case "<MouseWheelDown>" => text
    case "<C-q>" => text
    case "<Escape>" => text
    case "<Space>" =>
      text + " "
    case "<Backspace>" =>
      if |text| > 2 then text[..|text| - 1] else text
    case "<Enter>" => Prompt
    case _ =>
      if id != "<MouseLeft>" && id != "<MouseRight>" && id != "<MouseMiddle>" && id != "<MouseRelease>" then
        text + id
      else text
  }

  /** What one event does besides editing the text. */
  function EffectOf(text: string, id: string, sha256h: string): (e: Effect)
    ensures e.Quit? <==> id == "<C-q>"
    ensures e.Submitted? <==> id == "<Enter>"
    ensures e.Submitted? ==> e.action == ProcessCommand(text, sha256h)
  {
    match id
    case "<C-q>" => Quit
    case "<Enter>" => Submitted(ProcessCommand(text, sha256h))
    case _ => Continue
  }

  /** How each event edits the text. */
  lemma EventEffectsOnText(text: string, id: string)
    ensures id in MouseIds || id == "<Escape>" || id == "<C-q>" ==> NextText(text, id) == text
    ensures NextText(text, "<Space>") == text + " "
    ensures NextText(text, "<Enter>") == Prompt
    ensures Typed(id) ==> NextText(text, id) == text + id
  {
  }

  /** Backspace never eats into the prompt: on the bare prompt it does nothing. */
  lemma BackspaceOnPromptIsNoOp()
    ensures NextText(Prompt, "<Backspace>") == Prompt
  {
  }

  /** Backspace undoes a blank or a one-byte key typed after the prompt. */
  lemma BackspaceUndoesOneByte(text: string, id: string)
    requires Prompted(text)
    requires id == "<Space>" || (Typed(id) && |id| == 1)
    ensures NextText(NextText(text, id), "<Backspace>") == text
  {
  }

  /**
    The outcome of a run of events: the final text, the texts submitted with
    `<Enter>` in order, and whether `<C-q>` ended the loop.
  */
  datatype Session = Session(text: string, commands: seq<string>, quit: bool)

  /**
    The event loop as a fold over the events; it stops at the first `<C-q>`.
    It quits exactly when some event is `<C-q>`, and submits at most one
    command per event.
  */
  function Replay(text: string, events: seq<string>): (r: Session)
    ensures r.quit <==> "<C-q>" in events
    ensures |r.commands| <= |events|
    decreases |events|
  {
    if events == [] then Session(text, [], false)
    else if events[0] == "<C-q>" then Session(text, [], true)
    else
      var rest := Replay(NextText(text, events[0]), events[1..]);
      Session(rest.text, (if events[0] == "<Enter>" then [text] else []) + rest.commands, rest.quit)
  }

  /** One event of the fold, taken apart. */
  lemma ReplayCons(text: string, id: string, rest: seq<string>)
    ensures Replay(text, [id] + rest)
      == if id == "<C-q>" then Session(text, [], true)
         else
           var r := Replay(NextText(text, id), rest);
           Session(r.text, (if id == "<Enter>" then [text] else []) + r.commands, r.quit)
  {
  }

  /** A run that follows the submission of `earlier`. */
  function After(earlier: seq<string>, s: Session): Session
  {
    Session(s.text, earlier + s.commands, s.quit)
  }

  /** The fold advanced by one event other than `<C-q>`, commands submitted so far kept in front. */
  lemma AfterStep(earlier: seq<string>, text: string, id: string, rest: seq<string>)
    requires id != "<C-q>"
    ensures After(earlier, Replay(text, [id] + rest))
      == After(earlier + (if id == "<Enter>" then [text] else []), Replay(NextText(text, id), rest))
  {
  }

  /** The actions the dispatcher performs for the submitted commands, in order. */
  function Actions(commands: seq<string>, sha256h: string): seq<Action>
  {
    seq(|commands|, i requires 0 <= i < |commands| => ProcessCommand(commands[i], sha256h))
  }

  /** Every reachable text, and every submitted command, begins with the prompt. */
  lemma {:induction false} ReplayKeepsPrompt(text: string, events: seq<string>)
    requires Prompted(text)
    ensures Prompted(Replay(text, events).text)
    ensures forall i :: 0 <= i < |Replay(text, events).commands| ==> Prompted(Replay(text, events).commands[i])
    decreases |events|
  {
    if events != [] && events[0] != "<C-q>" {
      ReplayKeepsPrompt(NextText(text, events[0]), events[1..]);
    }
  }

  /** The bytes of a run of typed keys, joined. */
  function Concat(keys: seq<string>): string
  {
    if keys == [] then "" else keys[0] + Concat(keys[1..])
  }

  /**
    Typing keys that reach the default case and then `<Enter>` submits the
    text followed by exactly those keys, and leaves the bare prompt.
  */
  lemma {:induction false} TypedKeysThenEnter(text: string, keys: seq<string>)
    requires forall i :: 0 <= i < |keys| ==> Typed(keys[i])
    ensures Replay(text, keys + ["<Enter>"]) == Session(Prompt, [text + Concat(keys)], false)
    decreases |keys|
  {
    if keys == [] {
      assert keys + ["<Enter>"] == ["<Enter>"];
      assert ["<Enter>"][1..] == [];
      assert text + Concat(keys) == text;
      assert [text] + [] == [text];
    } else {
      var k := keys[0];
      assert (keys + ["<Enter>"])[0] == k;
      assert (keys + ["<Enter>"])[1..] == keys[1..] + ["<Enter>"];
      assert k != "<C-q>" && k != "<Enter>";
      EventEffectsOnText(text, k);
      TypedKeysThenEnter(text + k, keys[1..]);
      assert (text + k) + Concat(keys[1..]) == text + Concat(keys);
    }
  }

  /** From the start, the keys `v`, `t`, `<Enter>` open the VirusTotal page of the file. */
  lemma VtFromStart(sha256h: string)
    ensures Replay(Prompt, ["v", "t", "<Enter>"]) == Session(Prompt, [": vt"], false)
    ensures Actions(Replay(Prompt, ["v", "t", "<Enter>"]).commands, sha256h)
      == [OpenUrl("https://virustotal.com/gui/file/" + sha256h)]
  {
    assert Typed("v") && Typed("t");
    TypedKeysThenEnter(Prompt, ["v", "t"]);
    assert ["v", "t"] + ["<Enter>"] == ["v", "t", "<Enter>"];
    assert Concat(["v", "t"]) == "vt" by {
      assert ["v", "t"][1..] == ["t"];
      assert ["t"][1..] == [];
    }
    assert Prompt + "vt" == ": vt";
  }

  /** `<C-q>` ends the loop at once: no later event is looked at. */
  lemma QuitEndsLoop(text: string, rest: seq<string>)
    ensures Replay(text, ["<C-q>"] + rest) == Session(text, [], true)
  {
  }

  /** The command-line paragraph, whose text the event loop edits in place. */
  class CommandBox {
    var text: string

    ghost predicate Valid()
      reads this
    {
      Prompted(text)
    }

    constructor ()
      ensures Valid() && text == Prompt
    {
      text := Prompt;
    }

    /** One pass of the event loop's `switch e.ID`. */
    method Step(id: string, sha256h: string) returns (effect: Effect)
      requires Valid()
      modifies this
      ensures Valid()
      ensures text == NextText(old(text), id)
      ensures effect == EffectOf(old(text), id, sha256h)
    {
      effect := Continue;
      match id {
        case "<MouseLeft>" =>
        case "<MouseRelease>" =>
        case "<MouseRight>" =>
        case "<MouseMiddle>" =>
        case "<MouseWheelUp>" =>
        case "<MouseWheelDown>" =>
        case "<C-q>" =>
          effect := Quit;
        case "<Escape>" =>
        case "<Space>" =>
          text := text + " ";
        case "<Backspace>" =>
          var sz := |text|;
          if sz > 2 {
            text := text[..sz - 1];
          }
        case "<Enter>" =>
          effect := Submitted(ProcessCommand(text, sha256h));
          text := Prompt;
        case _ =>
          if id != "<MouseLeft>" && id != "<MouseRight>" && id != "<MouseMiddle>" && id != "<MouseRelease>" {
            text := text + id;
          }
      }
    }

    /** The event loop over a finite run of events, until `<C-q>` or the events run out. */
    method EventLoop(events: seq<string>, sha256h: string) returns (actions: seq<Action>, quit: bool)
      requires Valid()
      modifies this
      ensures Valid()
      ensures text == Replay(old(text), events).text
      ensures quit == Replay(old(text), events).quit
      ensures actions == Actions(Replay(old(text), events).commands, sha256h)
    {
      ghost var commands: seq<string> := [];
      actions, quit := [], false;
      var i := 0;
      assert events[i..] == events;
      assert After(commands, Replay(text, events)) == Replay(text, events) by {
        assert commands + Replay(text, events).commands == Replay(text, events).commands;
      }
      while i < |events|
        invariant 0 <= i <= |events|
        invariant Valid()
        invariant Replay(old(text), events) == After(commands, Replay(text, events[i..]))
        invariant actions == Actions(commands, sha256h)
        decreases |events| - i
      {
        var id := events[i];
        assert events[i..] == [id] + events[i + 1..];
        ghost var before := text;
        var effect := Step(id, sha256h);
        if effect.Quit? {
          quit := true;
          ReplayCons(before, id, events[i + 1..]);
          assert commands + [] == commands;
          return;
        }
        AfterStep(commands, before, id, events[i + 1..]);
        commands := commands + (if id == "<Enter>" then [before] else []);
        if effect.Submitted? {
          actions := actions + [effect.action];
        }
        i := i + 1;
      }
      assert commands + [] == commands;
    }
  }
}
