/** The chat client's line editor, chat log, command parser and the key
    dispatch of its main loop (src/client.cpp). Terminal drawing is not
    modelled; key codes read from the terminal are a parameter, and the
    network side of the `connect` and `disconnect` commands is returned to
    the caller as an Invocation instead of being performed. */
module ChatClient {
  import opened Wrappers

  /** Colour pairs a line can be drawn with. */
  datatype Color = Regular | Highlight | Error | Info

  /** One entry of the chat log. */
  datatype Line = Line(text: string, color: Color)

  // ---------------------------------------------------------------------
  // The prompt buffer

  /** The value of a prompt: the characters typed so far and the cursor,
      an index into them (the insertion point). */
  datatype Buffer = Buffer(data: seq<char>, cursor: nat)

  /** The prompt's invariant: the cursor is at most one past the last character. */
  predicate Wf(b: Buffer) {
    b.cursor <= |b.data|
  }

  const Empty: Buffer := Buffer([], 0)

  /** `put`: the character goes in at the cursor, which moves past it. */
  function Inserted(b: Buffer, ch: char): (r: Buffer)
    requires Wf(b)
    ensures Wf(r)
    ensures |r.data| == |b.data| + 1 && r.cursor == b.cursor + 1
    ensures r.data[..b.cursor] == b.data[..b.cursor]
    ensures r.data[b.cursor] == ch
    ensures r.data[r.cursor..] == b.data[b.cursor..]
  {
    Buffer(b.data[..b.cursor] + [ch] + b.data[b.cursor..], b.cursor + 1)
  }

  /** `backspace`: removes the character before the cursor; at column 0 nothing happens. */
  function Erased(b: Buffer): (r: Buffer)
    requires Wf(b)
    ensures Wf(r)
    ensures b.cursor == 0 ==> r == b
    ensures b.cursor > 0 ==>
              && r.cursor == b.cursor - 1
              && |r.data| == |b.data| - 1
              && r.data[..r.cursor] == b.data[..r.cursor]
              && r.data[r.cursor..] == b.data[b.cursor..]
  {
    if b.cursor == 0 then b
    else Buffer(b.data[..b.cursor - 1] + b.data[b.cursor..], b.cursor - 1)
  }

  /** `move_cursor_left`: one column left, stopping at 0; the text is untouched. */
  function MovedLeft(b: Buffer): (r: Buffer)
    requires Wf(b)
    ensures Wf(r) && r.data == b.data
    ensures r.cursor <= b.cursor
    ensures r.cursor == b.cursor <==> b.cursor == 0
    ensures b.cursor > 0 ==> r.cursor == b.cursor - 1
  {
    Buffer(b.data, if b.cursor == 0 then 0 else b.cursor - 1)
  }

  /** `move_cursor_right`: one column right, stopping after the last character. */
  function MovedRight(b: Buffer): (r: Buffer)
    requires Wf(b)
    ensures Wf(r) && r.data == b.data
    ensures b.cursor <= r.cursor
    ensures r.cursor == b.cursor <==> b.cursor == |b.data|
    ensures b.cursor < |b.data| ==> r.cursor == b.cursor + 1
  {
    Buffer(b.data, if b.cursor == |b.data| then b.cursor else b.cursor + 1)
  }

  /** Typing a character and then pressing backspace gives back the prompt as it was. */
  lemma InsertThenErase(b: Buffer, ch: char)
    requires Wf(b)
    ensures Erased(Inserted(b, ch)) == b
  {
    var r := Inserted(b, ch);
    assert r.data[..r.cursor - 1] + r.data[r.cursor..] == b.data;
  }

  /** Left and right undo each other away from the edges, and neither moves past them. */
  lemma MovesUndoEachOther(b: Buffer)
    requires Wf(b)
    ensures b.cursor > 0 ==> MovedRight(MovedLeft(b)) == b
    ensures b.cursor < |b.data| ==> MovedLeft(MovedRight(b)) == b
    ensures b.cursor == 0 ==> MovedLeft(b) == b
    ensures b.cursor == |b.data| ==> MovedRight(b) == b
  {
  }

  /** The prompt object of the client: a vector of characters and an
      unsigned cursor into it, edited in place. */
  class Prompt {
    var data: seq<char>
    var cursor: nat

    function Value(): Buffer
      reads this
    {
      Buffer(data, cursor)
    }

    predicate Valid()
      reads this
    {
      Wf(Value())
    }

    /** `Prompt prompt{}` value-initialises: no characters, cursor 0. */
    constructor ()
      ensures Valid() && Value() == Empty
    {
      data := [];
      cursor := 0;
    }

    method Put(ch: char)
      requires Valid()
      modifies this
      ensures Valid() && Value() == Inserted(old(Value()), ch)
    {
      data := data[..cursor] + [ch] + data[cursor..];
      cursor := cursor + 1;
    }

    method Backspace()
      requires Valid()
      modifies this
      ensures Valid() && Value() == Erased(old(Value()))
    {
      if cursor == 0 {
        return;
      }
      data := data[..cursor - 1] + data[cursor..];
      cursor := cursor - 1;
    }

    method MoveCursorLeft()
      requires Valid()
      modifies this
      ensures Valid() && Value() == MovedLeft(old(Value()))
    {
      cursor := if cursor == 0 then 0 else cursor - 1;
    }

    method MoveCursorRight()
      requires Valid()
      modifies this
      ensures Valid() && Value() == MovedRight(old(Value()))
    {
      cursor := if cursor == |data| then cursor else cursor + 1;
    }

    method Clear()
      modifies this
      ensures Valid() && Value() == Empty
    {
      data := [];
      cursor := 0;
    }

    /** `getPromptString`: the typed characters, in order. */
    function PromptString(): (s: string)
      reads this
      ensures |s| == |data|
      ensures forall i :: 0 <= i < |s| ==> s[i] == data[i]
    {
      data
    }

    /** The terminal column `sync_cursor_with_terminal` moves to when the
        prompt starts at column `x` of a `width`-column screen:
        `min(x + cursor_, width)` in unsigned arithmetic. */
    function CursorColumn(x: u32, width: u32): (col: u32)
      reads this
      requires cursor < U32_LIMIT
      ensures col <= width
      ensures x + cursor <= width ==> col == x + cursor
      ensures width <= x + cursor < U32_LIMIT ==> col == width
      ensures U32_LIMIT <= x + cursor && x + cursor - U32_LIMIT <= width ==> col == x + cursor - U32_LIMIT
    ensures U32_LIMIT <= x + cursor && width < x + cursor - U32_LIMIT ==> col == width
    {
      var sum := (x + cursor) % U32_LIMIT;
      if sum < width then sum else width
    }
  }

  // ---------------------------------------------------------------------
  // The chat log

  /** The list of coloured lines shown above the prompt; it only grows. */
  class ChatLog {
    var items: seq<Line>

    constructor ()
      ensures items == []
    {
      items := [];
    }

    method Put(message: string, color: Color)
      modifies this
      ensures items == old(items) + [Line(message, color)]
    {
      items := items + [Line(message, color)];
    }
  }

  method Msg(chat: ChatLog, message: string)
    modifies chat
    ensures chat.items == old(chat.items) + [Line(message, Regular)]
  {
    chat.Put(message, Regular);
  }

  method ErrMsg(chat: ChatLog, message: string)
    modifies chat
    ensures chat.items == old(chat.items) + [Line(message, Error)]
  {
    chat.Put(message, Error);
  }

  method InfoMsg(chat: ChatLog, message: string)
    modifies chat
    ensures chat.items == old(chat.items) + [Line(message, Info)]
  {
    chat.Put(message, Info);
  }

  // ---------------------------------------------------------------------
  // Parsing the prompt

  /** `std::string::find(c)`: the first position of `c`, None standing for npos. */
  function IndexOf(s: string, c: char): (r: Option<nat>)
    ensures r.Some? ==> r.value < |s| && s[r.value] == c && c !in s[..r.value]
    ensures r.None? <==> c !in s
  {
    if s == [] then None
    else if s[0] == c then Some(0)
    else
      match IndexOf(s[1..], c)
      case None => None
      case Some(i) =>
        assert s[..i + 1] == [s[0]] + s[1..][..i];
        Some(i + 1)
  }

  /** `parse_prompt`: a prompt that starts with '/' is a command; its name
      runs up to the first space and its argument is everything after it. */
  function ParsePrompt(prompt: string): (r: Option<(string, string)>)
    ensures r.None? <==> (|prompt| == 0 || prompt[0] != '/')
    ensures r.Some? ==> ' ' !in r.value.0
  {
    if IndexOf(prompt, '/') != Some(0) then None
    else
      var rest := prompt[1..];
      match IndexOf(rest, ' ')
      case Some(k) => Some((rest[..k], rest[k + 1..]))
      case None => Some((rest, ""))
  }

  /** A command line is split at its first space: the name and the argument
      with a space between them give the line back after the '/'; with no
      space the whole line after the '/' is the name and the argument is empty. */
  lemma ParseSplitsAtFirstSpace(prompt: string)
    requires ParsePrompt(prompt).Some?
    ensures ' ' in prompt[1..] ==> "/" + ParsePrompt(prompt).value.0 + " " + ParsePrompt(prompt).value.1 == prompt
    ensures ' ' !in prompt[1..] ==> ParsePrompt(prompt).value == (prompt[1..], "")
  {
    var rest := prompt[1..];
    match IndexOf(rest, ' ')
    case Some(k) =>
      assert "/" + rest[..k] + " " + rest[k + 1..] == prompt;
    case None =>
  }

  /** A command line written as "/name argument" parses back to its parts. */
  lemma ParseFormatted(name: string, argument: string)
    requires ' ' !in name
    ensures ParsePrompt("/" + name + " " + argument) == Some((name, argument))
  {
    var p := "/" + name + " " + argument;
    var rest := p[1..];
    assert rest == name + " " + argument;
    assert rest[..|name|] == name;
    assert rest[|name|] == ' ';
    assert rest[|name| + 1..] == argument;
  }

  /** A command written without an argument parses to the empty argument. */
  lemma ParseBare(name: string)
    requires ' ' !in name
    ensures ParsePrompt("/" + name) == Some((name, ""))
  {
    assert ("/" + name)[1..] == name;
  }

  // ---------------------------------------------------------------------
  // The command table

  /** What a command's `run` member does. */
  datatype Action = Connect | Disconnect | Quit

  datatype Command = Command(name: string, description: string, signature: string, run: Action)

  const COMMANDS: seq<Command> := [
    Command("connect", "Connect to a server by <ip>", "/connect <ip>", Connect),
    Command("disconnect", "Disconnect from the server", "/disconnect", Disconnect),
    Command("quit", "Close the chat", "/quit", Quit)
  ]

  /** `std::find_if` over a table: the first entry with the given name. */
  function FindIn(table: seq<Command>, name: string): (r: Option<Command>)
    ensures r.Some? ==> r.value in table && r.value.name == name
    ensures r.None? <==> forall i :: 0 <= i < |table| ==> table[i].name != name
    ensures |table| > 0 && table[0].name == name ==> r == Some(table[0])
    ensures r.Some? ==> exists i :: 0 <= i < |table| && table[i] == r.value && forall j :: 0 <= j < i ==> table[j].name != name
  {
    if table == [] then None
    else if table[0].name == name then Some(table[0])
    else FindIn(table[1..], name)
  }

  /** `find_command`: the table entry named `name`, None for the null pointer. */
  function FindCommand(name: string): (r: Option<Command>)
    ensures r.Some? ==> r.value in COMMANDS && r.value.name == name
    ensures r.None? <==> forall i :: 0 <= i < |COMMANDS| ==> COMMANDS[i].name != name
  {
    FindIn(COMMANDS, name)
  }

  /** The table answers exactly for "connect", "disconnect" and "quit", each with its own entry. */
  lemma CommandTable(name: string)
    ensures FindCommand(name).Some? <==> name in {"connect", "disconnect", "quit"}
    ensures name == "connect" ==> FindCommand(name) == Some(COMMANDS[0])
    ensures name == "disconnect" ==> FindCommand(name) == Some(COMMANDS[1])
    ensures name == "quit" ==> FindCommand(name) == Some(COMMANDS[2])
  {
  }

  /** Each entry's signature, typed at the prompt, names that entry: it
      parses to the entry's name, and the lookup finds the entry. */
  lemma SignaturesInvoke(i: nat)
    requires i < |COMMANDS|
    ensures ParsePrompt(COMMANDS[i].signature).Some?
    ensures ParsePrompt(COMMANDS[i].signature).value.0 == COMMANDS[i].name
    ensures FindCommand(COMMANDS[i].name) == Some(COMMANDS[i])
  {
    var c := COMMANDS[i];
    if i == 0 {
      assert c.signature == "/" + c.name + " " + "<ip>";
      ParseFormatted(c.name, "<ip>");
    } else {
      assert c.signature == "/" + c.name;
      ParseBare(c.name);
    }
    CommandTable(c.name);
  }

  // ---------------------------------------------------------------------
  // Key dispatch

  /** The value `getch` returns when no key is waiting. */
  const ERR: int := -1
  /** ncurses' KEY_BACKSPACE (octal 0407). */
  const KEY_BACKSPACE: int := 263
  const DELETE: int := 127
  const NEWLINE: int := 10

  const UNKNOWN_COMMAND: string := "Unknown command"

  /** The `ctrl(x)` macro: the control code sent with the key, its low five bits. */
  function Ctrl(c: char): (k: int)
    ensures 0 <= k < 32
  {
    c as int % 32
  }

  /** `ctrl` keeps exactly the bits of `x & 0x1F`. */
  lemma CtrlIsMask(c: char)
    requires c as int < 256
    ensures Ctrl(c) == (((c as int) as bv8) & 0x1F) as int
  {
  }

  /** `std::isprint` in the C locale. No printable key is one of the keys
      the `switch` binds before its default branch. */
  predicate IsPrint(key: int)
    ensures IsPrint(key) ==> key !in {ERR, DELETE, KEY_BACKSPACE, NEWLINE}
    ensures IsPrint(key) ==> key != Ctrl('c') && key != Ctrl('h') && key != Ctrl('l')
  {
    32 <= key <= 126
  }

  /** What the main loop keeps between keys: the prompt, the client's chat log and its quit flag. */
  datatype Screen = Screen(prompt: Buffer, log: seq<Line>, quit: bool)

  /** A command's `run` called with its argument. */
  datatype Invocation = Invocation(action: Action, argument: string)

  /** The outcome of one key: the new screen state and the command that ran, if any. */
  datatype Reaction = Reaction(screen: Screen, run: Option<Invocation>)

  /** The Enter branch: send the line as chat text, run the command it names,
      or report an unknown command; the prompt is cleared in every case and
      at most one line is added to the log. */
  function Submit(s: Screen): (r: Reaction)
    ensures r.screen.prompt == Empty
    ensures s.log <= r.screen.log && |r.screen.log| <= |s.log| + 1
    ensures r.run.None? ==> r.screen.quit == s.quit && |r.screen.log| == |s.log| + 1
    ensures r.run.Some? ==> r.screen.log == s.log && r.screen.quit == (s.quit || r.run.value.action == Quit)
  {
    var promptMsg := s.prompt.data;
    match ParsePrompt(promptMsg)
    case None =>
      Reaction(Screen(Empty, s.log + [Line(promptMsg, Regular)], s.quit), None)
    case Some((command, argument)) =>
      match FindCommand(command)
      case None =>
        Reaction(Screen(Empty, s.log + [Line(UNKNOWN_COMMAND, Error)], s.quit), None)
      case Some(c) =>
        Reaction(Screen(Empty, s.log, s.quit || c.run == Quit), Some(Invocation(c.run, argument)))
  }

  /** Enter on a line that does not start with '/' (the empty line included)
      logs that line once in the Regular colour. */
  lemma SubmitChatText(s: Screen)
    requires |s.prompt.data| == 0 || s.prompt.data[0] != '/'
    ensures Submit(s) == Reaction(Screen(Empty, s.log + [Line(s.prompt.data, Regular)], s.quit), None)
  {
  }

  /** Enter on "/name" or "/name argument" for a name outside the table
      logs "Unknown command" in the Error colour and runs nothing. */
  lemma SubmitUnknownCommand(s: Screen, name: string, argument: string)
    requires ' ' !in name && name !in {"connect", "disconnect", "quit"}
    requires s.prompt.data == "/" + name || s.prompt.data == "/" + name + " " + argument
    ensures Submit(s) == Reaction(Screen(Empty, s.log + [Line(UNKNOWN_COMMAND, Error)], s.quit), None)
  {
    if s.prompt.data == "/" + name { ParseBare(name); } else { ParseFormatted(name, argument); }
  }

  /** Enter on "/name argument" or "/name" for a name in the table runs that
      command with that argument (empty for "/name"), leaves the log alone,
      and quits exactly for "quit". */
  lemma SubmitKnownCommand(s: Screen, name: string, argument: string)
    requires name in {"connect", "disconnect", "quit"}
    requires s.prompt.data == "/" + name + " " + argument || (s.prompt.data == "/" + name && argument == "")
    ensures Submit(s).screen == Screen(Empty, s.log, s.quit || name == "quit")
    ensures Submit(s).run == Some(Invocation(FindCommand(name).value.run, argument))
  {
    if s.prompt.data == "/" + name { ParseBare(name); } else { ParseFormatted(name, argument); }
  }

  /** The case of the main loop's `switch` a key value falls into. */
  datatype Input = Interrupt | Left | Right | Erase | Enter | Type(ch: char) | Ignored

  /** Which branch of the `switch` handles `key`; ERR and unbound keys do nothing. */
  function Decode(key: int): (i: Input)
    ensures i.Type? <==> IsPrint(key)
    ensures i.Type? ==> i.ch as int == key
    ensures i == Enter <==> key == NEWLINE
    ensures i == Interrupt <==> key == Ctrl('c')
  {
    if key == ERR then Ignored
    else if key == Ctrl('c') then Interrupt
    else if key == Ctrl('h') then Left
    else if key == Ctrl('l') then Right
    else if key == DELETE || key == KEY_BACKSPACE then Erase
    else if key == NEWLINE then Enter
    else if IsPrint(key) then Type(key as char)
    else Ignored
  }

  /** What a branch of the `switch` does to the screen. */
  function Apply(s: Screen, input: Input): (r: Reaction)
    requires Wf(s.prompt)
    ensures Wf(r.screen.prompt)
    ensures s.log <= r.screen.log && |r.screen.log| <= |s.log| + 1
    ensures input != Enter ==> r.screen.log == s.log && r.run == None
  {
    match input
    case Interrupt => Reaction(s.(quit := true), None)
    case Left => Reaction(s.(prompt := MovedLeft(s.prompt)), None)
    case Right => Reaction(s.(prompt := MovedRight(s.prompt)), None)
    case Erase => Reaction(s.(prompt := Erased(s.prompt)), None)
    case Enter => Submit(s)
    case Type(ch) => Reaction(s.(prompt := Inserted(s.prompt, ch)), None)
    case Ignored => Reaction(s, None)
  }

  /** One turn of the main loop's `switch` on the key read. */
  function Step(s: Screen, key: int): (r: Reaction)
    requires Wf(s.prompt)
    ensures Wf(r.screen.prompt)
    ensures s.log <= r.screen.log && |r.screen.log| <= |s.log| + 1
    ensures key != NEWLINE ==> r.screen.log == s.log && r.run == None
  {
    Apply(s, Decode(key))
  }

  /** What each key does to the prompt and the quit flag: printable keys are
      inserted, ctrl-h and ctrl-l move the cursor, 127 and KEY_BACKSPACE
      erase, ctrl-c quits, Enter clears the prompt, every other key is ignored. */
  lemma StepKeys(s: Screen, key: int)
    requires Wf(s.prompt)
    ensures key == NEWLINE ==> Step(s, key) == Submit(s)
    ensures IsPrint(key) ==> Step(s, key) == Reaction(s.(prompt := Inserted(s.prompt, key as char)), None)
    ensures key == Ctrl('c') ==> Step(s, key) == Reaction(s.(quit := true), None)
    ensures key == Ctrl('h') ==> Step(s, key) == Reaction(s.(prompt := MovedLeft(s.prompt)), None)
    ensures key == Ctrl('l') ==> Step(s, key) == Reaction(s.(prompt := MovedRight(s.prompt)), None)
    ensures key == DELETE || key == KEY_BACKSPACE ==> Step(s, key) == Reaction(s.(prompt := Erased(s.prompt)), None)
    ensures key !in {Ctrl('c'), Ctrl('h'), Ctrl('l'), DELETE, KEY_BACKSPACE, NEWLINE} && !IsPrint(key) ==>
              Step(s, key) == Reaction(s, None)
    ensures Step(s, key).screen.quit == (s.quit || key == Ctrl('c') || (Step(s, key).run.Some? && Step(s, key).run.value.action == Quit))
  {
  }

  /** The control codes of the three bound keys. */
  lemma ControlCodes()
    ensures Ctrl('c') == 3 && Ctrl('h') == 8 && Ctrl('l') == 12
  {
  }

  /** The commands that ran, in order. */
  function Ran(run: Option<Invocation>): seq<Invocation> {
    if run.Some? then [run.value] else []
  }

  /** `while (!client.quit)` over a sequence of keys: the final screen and
      the commands run, `ran` followed by those the keys run, stopping at
      the first key that sets the quit flag. */
  function Session(s: Screen, keys: seq<int>, ran: seq<Invocation>): (r: (Screen, seq<Invocation>))
    requires Wf(s.prompt)
    ensures Wf(r.0.prompt)
    ensures s.log <= r.0.log && ran <= r.1
    ensures s.quit || keys == [] ==> r == (s, ran)
    decreases |keys|
  {
    if s.quit || keys == [] then (s, ran)
    else
      var o := Step(s, keys[0]);
      Session(o.screen, keys[1..], ran + Ran(o.run))
  }

  /** A key that runs no command just moves the session on to the next key. */
  lemma SessionQuietStep(s: Screen, keys: seq<int>, ran: seq<Invocation>)
    requires Wf(s.prompt) && !s.quit && keys != [] && Step(s, keys[0]).run == None
    ensures Session(s, keys, ran) == Session(Step(s, keys[0]).screen, keys[1..], ran)
  {
    assert ran + Ran(None) == ran;
  }

  /** The key codes `getch` reports for a typed string. */
  function KeyCodes(text: string): (keys: seq<int>)
    ensures |keys| == |text|
    ensures forall i :: 0 <= i < |text| ==> keys[i] == text[i] as int
  {
    if text == [] then [] else [text[0] as int] + KeyCodes(text[1..])
  }

  predicate Printable(text: string) {
    forall i :: 0 <= i < |text| ==> IsPrint(text[i] as int)
  }

  lemma PrintableTail(text: string)
    requires Printable(text) && text != []
    ensures Printable(text[1..])
  {
    forall i | 0 <= i < |text[1..]| ensures IsPrint(text[1..][i] as int) {
      assert text[1..][i] == text[i + 1];
    }
  }

  /** A printable key inserts its character and runs nothing. */
  lemma StepTyped(s: Screen, ch: char)
    requires Wf(s.prompt) && IsPrint(ch as int)
    ensures Step(s, ch as int) == Reaction(s.(prompt := Inserted(s.prompt, ch)), None)
  {
    assert Decode(ch as int) == Type(ch);
  }

  /** The keys of a non-empty text start with its first character. */
  lemma KeyCodesCons(text: string, rest: seq<int>)
    requires text != []
    ensures (KeyCodes(text) + rest)[0] == text[0] as int
    ensures (KeyCodes(text) + rest)[1..] == KeyCodes(text[1..]) + rest
  {
  }

  /** Typing the first character of a printable text inserts it and the session goes on. */
  lemma SessionTyped(s: Screen, text: string, rest: seq<int>, ran: seq<Invocation>)
    requires Wf(s.prompt) && !s.quit && text != [] && IsPrint(text[0] as int)
    ensures Session(s, KeyCodes(text) + rest, ran) ==
            Session(s.(prompt := Inserted(s.prompt, text[0])), KeyCodes(text[1..]) + rest, ran)
  {
    KeyCodesCons(text, rest);
    StepTyped(s, text[0]);
    SessionQuietStep(s, KeyCodes(text) + rest, ran);
  }

  /** Inserting the first character of `text` at the end of the prompt,
      then the rest, appends `text`. */
  lemma InsertedAtEnd(s: Screen, text: string)
    requires Wf(s.prompt) && s.prompt.cursor == |s.prompt.data| && text != []
    ensures var t := s.(prompt := Inserted(s.prompt, text[0]));
            t.(prompt := Buffer(t.prompt.data + text[1..], |t.prompt.data| + |text[1..]|)) ==
            s.(prompt := Buffer(s.prompt.data + text, |s.prompt.data| + |text|))
  {
    var b := s.prompt;
    assert b.data[..b.cursor] == b.data && b.data[b.cursor..] == [];
    assert Inserted(b, text[0]).data == b.data + [text[0]];
    assert Inserted(b, text[0]).data + text[1..] == b.data + text;
  }

  /** Typing no characters leaves the prompt and the keys as they were. */
  lemma NothingTyped(s: Screen, text: string, rest: seq<int>)
    requires text == [] && s.prompt.cursor == |s.prompt.data|
    ensures KeyCodes(text) + rest == rest
    ensures s.(prompt := Buffer(s.prompt.data + text, |s.prompt.data| + |text|)) == s
  {
    assert s.prompt.data + text == s.prompt.data;
  }

  /** The step of `TypingAppends`: once the rest of the text is known to be
      appended, typing its first character before it appends all of it. */
  lemma TypedFirst(s: Screen, text: string, rest: seq<int>, ran: seq<Invocation>)
    requires Wf(s.prompt) && !s.quit && s.prompt.cursor == |s.prompt.data| && text != [] && IsPrint(text[0] as int)
    requires Session(s.(prompt := Inserted(s.prompt, text[0])), KeyCodes(text[1..]) + rest, ran) ==
             Session(s.(prompt := Inserted(s.prompt, text[0])).(prompt := Buffer(
                       s.(prompt := Inserted(s.prompt, text[0])).prompt.data + text[1..],
                       |s.(prompt := Inserted(s.prompt, text[0])).prompt.data| + |text[1..]|)), rest, ran)
    ensures Session(s, KeyCodes(text) + rest, ran) ==
            Session(s.(prompt := Buffer(s.prompt.data + text, |s.prompt.data| + |text|)), rest, ran)
  {
    InsertedAtEnd(s, text);
    SessionTyped(s, text, rest, ran);
  }

  /** Typing printable characters at the end of the prompt appends them to
      it and changes nothing else; the session goes on with what follows. */
  lemma {:induction false} TypingAppends(s: Screen, text: string, rest: seq<int>, ran: seq<Invocation>)
    requires Wf(s.prompt) && !s.quit && s.prompt.cursor == |s.prompt.data| && Printable(text)
    ensures Session(s, KeyCodes(text) + rest, ran) ==
            Session(s.(prompt := Buffer(s.prompt.data + text, |s.prompt.data| + |text|)), rest, ran)
    decreases |text|
  {
    if text == [] {
      NothingTyped(s, text, rest);
    } else {
      PrintableTail(text);
      TypingAppends(s.(prompt := Inserted(s.prompt, text[0])), text[1..], rest, ran);
      TypedFirst(s, text, rest, ran);
    }
  }

  /** Text typed into an empty prompt is the whole prompt, the cursor after it. */
  lemma TypedFromEmpty(s: Screen, text: string)
    requires s.prompt == Empty && !s.quit
    ensures s.(prompt := Buffer(s.prompt.data + text, |s.prompt.data| + |text|)) == Screen(Buffer(text, |text|), s.log, false)
  {
    assert [] + text == text;
  }

  /** Pressing Enter is one Submit, after which the session goes on with the keys that follow. */
  lemma EnterPressed(s: Screen, keys: seq<int>, ran: seq<Invocation>)
    requires Wf(s.prompt) && !s.quit && keys != [] && keys[0] == NEWLINE
    ensures Session(s, keys, ran) == Session(Submit(s).screen, keys[1..], ran + Ran(Submit(s).run))
  {
    assert Decode(NEWLINE) == Enter;
  }

  /** Typing a line that is not a command and pressing Enter adds it to the
      chat log once, in the Regular colour, runs nothing and leaves an empty prompt. */
  lemma ChatLineLogged(s: Screen, text: string)
    requires s.prompt == Empty && !s.quit && Printable(text)
    requires text == [] || text[0] != '/'
    ensures Session(s, KeyCodes(text) + [NEWLINE], []) ==
            (Screen(Empty, s.log + [Line(text, Regular)], false), [])
  {
    TypingAppends(s, text, [NEWLINE], []);
    var typed := Screen(Buffer(text, |text|), s.log, false);
    TypedFromEmpty(s, text);
    EnterPressed(typed, [NEWLINE], []);
    assert [NEWLINE][1..] == [];
    SubmitChatText(typed);
  }

  /** "/name" prints as itself. */
  lemma CommandPrintable(name: string)
    requires Printable(name)
    ensures Printable("/" + name)
  {
    var text := "/" + name;
    forall i | 0 <= i < |text| ensures IsPrint(text[i] as int) {
      if i > 0 { assert text[i] == name[i - 1]; }
    }
  }

  /** Typing "/name" for a name outside the table and pressing Enter reports
      "Unknown command" in the Error colour and runs nothing. */
  lemma UnknownCommandReported(s: Screen, name: string)
    requires s.prompt == Empty && !s.quit && Printable(name) && ' ' !in name
    requires name !in {"connect", "disconnect", "quit"}
    ensures Session(s, KeyCodes("/" + name) + [NEWLINE], []) ==
            (Screen(Empty, s.log + [Line(UNKNOWN_COMMAND, Error)], false), [])
  {
    var text := "/" + name;
    CommandPrintable(name);
    TypingAppends(s, text, [NEWLINE], []);
    var typed := Screen(Buffer(text, |text|), s.log, false);
    TypedFromEmpty(s, text);
    EnterPressed(typed, [NEWLINE], []);
    assert [NEWLINE][1..] == [];
    SubmitUnknownCommand(typed, name, "");
  }

  /** Enter on "/quit" runs the quit command with no argument and sets the quit flag. */
  lemma SubmitQuit(log: seq<Line>)
    ensures Submit(Screen(Buffer("/quit", |"/quit"|), log, false)) ==
            Reaction(Screen(Empty, log, true), Some(Invocation(Quit, "")))
  {
    var typed := Screen(Buffer("/quit", |"/quit"|), log, false);
    assert typed.prompt.data == "/" + "quit";
    SubmitKnownCommand(typed, "quit", "");
    CommandTable("quit");
  }

  /** Typing "/quit" and pressing Enter runs the quit command and ends the
      session: the keys after it are never read. */
  lemma QuitCommandEndsSession(s: Screen, more: seq<int>)
    requires s.prompt == Empty && !s.quit
    ensures Session(s, KeyCodes("/quit") + ([NEWLINE] + more), []) ==
            (Screen(Empty, s.log, true), [Invocation(Quit, "")])
  {
    var text := "/quit";
    assert Printable(text);
    TypingAppends(s, text, [NEWLINE] + more, []);
    var typed := Screen(Buffer(text, |text|), s.log, false);
    TypedFromEmpty(s, text);
    EnterPressed(typed, [NEWLINE] + more, []);
    assert ([NEWLINE] + more)[1..] == more;
    SubmitQuit(s.log);
    assert [] + Ran(Some(Invocation(Quit, ""))) == [Invocation(Quit, "")];
  }

  /** The keys of a session, split after the first one. */
  lemma DropOne(keys: seq<int>, read: nat)
    requires read < |keys|
    ensures keys[read..][0] == keys[read] && keys[read..][1..] == keys[read + 1..]
  {
  }

  /** The main loop's invariant survives one key: the session from before the
      key is the session from after it, with the key's command recorded. */
  lemma SessionAdvance(keys: seq<int>, read: nat, runs: seq<Invocation>, before: Screen, o: Reaction)
    requires Wf(before.prompt) && !before.quit && read < |keys|
    requires o == Step(before, keys[read])
    ensures Session(before, keys[read..], runs) == Session(o.screen, keys[read + 1..], runs + Ran(o.run))
  {
    DropOne(keys, read);
  }

  // ---------------------------------------------------------------------
  // The client object and its main loop

  /** The client's state: its chat log and quit flag (the socket is not modelled). */
  class Client {
    const chat: ChatLog
    var quit: bool

    constructor ()
      ensures fresh(chat) && chat.items == [] && !quit
    {
      chat := new ChatLog();
      quit := false;
    }
  }

  function ScreenOf(client: Client, prompt: Prompt): Screen
    reads client, client.chat, prompt
  {
    Screen(prompt.Value(), client.chat.items, client.quit)
  }

  /** The `quit` command. */
  method SetQuit(client: Client)
    modifies client
    ensures client.quit
  {
    client.quit := true;
  }

  /** One pass of the main loop's `switch`, applied to the objects in place. */
  method HandleKey(client: Client, prompt: Prompt, key: int) returns (run: Option<Invocation>)
    requires prompt.Valid()
    modifies client, client.chat, prompt
    ensures prompt.Valid()
    ensures Reaction(ScreenOf(client, prompt), run) == Step(old(ScreenOf(client, prompt)), key)
  {
    run := None;
    if key == ERR {
      return;
    }
    if key == Ctrl('c') {
      SetQuit(client);
    } else if key == Ctrl('h') {
      prompt.MoveCursorLeft();
    } else if key == Ctrl('l') {
      prompt.MoveCursorRight();
    } else if key == DELETE || key == KEY_BACKSPACE {
      prompt.Backspace();
    } else if key == NEWLINE {
      var promptMsg := prompt.PromptString();
      var parsed := ParsePrompt(promptMsg);
      if parsed.Some? {
        var (command, argument) := parsed.value;
        var found := FindCommand(command);
        if found.Some? {
          run := Some(Invocation(found.value.run, argument));
          if found.value.run == Quit {
            SetQuit(client);
          }
        } else {
          ErrMsg(client.chat, UNKNOWN_COMMAND);
        }
      } else {
        Msg(client.chat, prompt.PromptString());
      }
      prompt.Clear();
    } else if IsPrint(key) {
      prompt.Put(key as char);
    }
  }

  /** `while (!client.quit)` fed with the sequence of values `getch` returns:
      handles keys until one sets the quit flag or the keys run out. */
  method MainLoop(client: Client, prompt: Prompt, keys: seq<int>) returns (read: nat, runs: seq<Invocation>)
    requires prompt.Valid()
    modifies client, client.chat, prompt
    ensures prompt.Valid()
    ensures read <= |keys| && (read < |keys| ==> client.quit)
    ensures (ScreenOf(client, prompt), runs) == Session(old(ScreenOf(client, prompt)), keys, [])
  {
    ghost var s0 := ScreenOf(client, prompt);
    read, runs := 0, [];
    assert keys[read..] == keys;
    while !client.quit && read < |keys|
      invariant read <= |keys| && prompt.Valid()
      invariant Session(ScreenOf(client, prompt), keys[read..], runs) == Session(s0, keys, [])
      decreases |keys| - read
    {
      ghost var before := ScreenOf(client, prompt);
      var run := HandleKey(client, prompt, keys[read]);
      SessionAdvance(keys, read, runs, before, Reaction(ScreenOf(client, prompt), run));
      runs := runs + Ran(run);
      read := read + 1;
    }
    assert read == |keys| ==> keys[read..] == [];
  }
}
