/**
  The terminal input line: a UTF-8 byte buffer with a cursor counted in
  characters, proved to behave like a plain editor of character sequences.
 */
module Editor {
  import opened Wrappers
  import opened Text

  const MAX_INPUT_BYTES := 4096

  /** The editor a user sees: characters and a cursor between two of them. */
  datatype Line = Line(chars: string, cursor: nat)

  const EMPTY_LINE := Line("", 0)

  ghost predicate Editable(line: Line) {
    && line.cursor <= |line.chars|
    && ByteLen(line.chars) <= MAX_INPUT_BYTES
    && NoControls(line.chars)
  }

  datatype Command =
    | Insert(c: char)
    | InsertText(s: string)
    | Backspace
    | Delete
    | MoveLeft
    | MoveRight
    | MoveHome
    | MoveEnd
    | Clear
    | Take

  predicate Accepts(line: Line, c: char) {
    !IsControl(c) && ByteLen(line.chars) + CharLen(c) <= MAX_INPUT_BYTES
  }

  function Splice(line: Line, s: string): (r: Line)
    requires line.cursor <= |line.chars|
  {
    Line(line.chars[..line.cursor] + s + line.chars[line.cursor..], line.cursor + |s|)
  }

  function Typed(line: Line, c: char): (r: Line)
    requires line.cursor <= |line.chars|
    ensures r.cursor <= |r.chars|
  {
    if Accepts(line, c) then Splice(line, [c]) else line
  }

  function Printable(s: string): (r: string) {
    if s == [] then []
    else (if IsControl(s[0]) then [] else [s[0]]) + Printable(s[1..])
  }

  /** How many of the printable characters `s` fit, stopping at the first that does not. */
  function Fitting(line: Line, s: string): (n: nat)
    requires line.cursor <= |line.chars|
    ensures n <= |s|
    decreases |s|
  {
    if s == [] || !Accepts(line, s[0]) then 0 else 1 + Fitting(Splice(line, [s[0]]), s[1..])
  }

  function Pasted(line: Line, s: string): (r: Line)
    requires line.cursor <= |line.chars|
  {
    Splice(line, Printable(s)[..Fitting(line, Printable(s))])
  }

  /** The line with the character before the cursor gone. */
  function Erased(line: Line): (r: Line)
    requires line.cursor <= |line.chars|
    ensures r.cursor <= |r.chars|
  {
    if line.cursor == 0 then line
    else Line(line.chars[..line.cursor - 1] + line.chars[line.cursor..], line.cursor - 1)
  }

  /** The line with the character after the cursor gone. */
  function Deleted(line: Line): (r: Line)
    requires line.cursor <= |line.chars|
    ensures r.cursor <= |r.chars|
  {
    if line.cursor == |line.chars| then line
    else Line(line.chars[..line.cursor] + line.chars[line.cursor + 1..], line.cursor)
  }

  function Apply(line: Line, command: Command): (r: Line)
    requires line.cursor <= |line.chars|
    ensures r.cursor <= |r.chars|
  {
    var Line(chars, cursor) := line;
    match command
    case Insert(c) => Typed(line, c)
    case InsertText(s) => Pasted(line, s)
    case Backspace => Erased(line)
    case Delete => Deleted(line)
    case MoveLeft => Line(chars, if cursor == 0 then 0 else cursor - 1)
    case MoveRight => Line(chars, if cursor == |chars| then cursor else cursor + 1)
    case MoveHome => Line(chars, 0)
    case MoveEnd => Line(chars, |chars|)
    case Clear | Take => EMPTY_LINE
  }

  function ApplyAll(line: Line, commands: seq<Command>): (r: Line)
    requires line.cursor <= |line.chars|
    ensures r.cursor <= |r.chars|
    decreases |commands|
  {
    if commands == [] then line else ApplyAll(Apply(line, commands[0]), commands[1..])
  }

  /** What each command does to the characters and to the cursor. */
  lemma CommandsAreExact(line: Line, c: char)
    requires line.cursor <= |line.chars|
    ensures var r := Apply(line, Insert(c));
      if !IsControl(c) && ByteLen(line.chars) + CharLen(c) <= 4096
      then
        && r.chars == line.chars[..line.cursor] + [c] + line.chars[line.cursor..]
        && r.cursor == line.cursor + 1
      else r == line
    ensures var r := Apply(line, Backspace);
      if line.cursor > 0
      then
        && r.chars == line.chars[..line.cursor - 1] + line.chars[line.cursor..]
        && r.cursor == line.cursor - 1
      else r == line
    ensures var r := Apply(line, Delete);
      if line.cursor < |line.chars|
      then
        && r.chars == line.chars[..line.cursor] + line.chars[line.cursor + 1..]
        && r.cursor == line.cursor
      else r == line
    ensures forall move :: move in {MoveLeft, MoveRight, MoveHome, MoveEnd} ==> Apply(line, move).chars == line.chars
    ensures Apply(line, MoveLeft).cursor == (if line.cursor == 0 then 0 else line.cursor - 1)
    ensures Apply(line, MoveRight).cursor == (if line.cursor < |line.chars| then line.cursor + 1 else |line.chars|)
    ensures Apply(line, MoveHome).cursor == 0 && Apply(line, MoveEnd).cursor == |line.chars|
    ensures Apply(line, Clear).chars == "" && Apply(line, Clear).cursor == 0
    ensures Apply(line, Take).chars == "" && Apply(line, Take).cursor == 0
  {
  }

  /** A paste inserts some prefix of its printable characters at the cursor, all of them if they fit. */
  lemma PasteIsExact(line: Line, s: string)
    requires line.cursor <= |line.chars| && ByteLen(line.chars) <= 4096
    ensures var n := Fitting(line, Printable(s));
      && Apply(line, InsertText(s)).chars
         == line.chars[..line.cursor] + Printable(s)[..n] + line.chars[line.cursor..]
      && Apply(line, InsertText(s)).cursor == line.cursor + n
      && ByteLen(line.chars) + ByteLen(Printable(s)[..n]) <= 4096
      && (n < |Printable(s)| ==> ByteLen(line.chars) + ByteLen(Printable(s)[..n + 1]) > 4096)
    ensures forall i :: 0 <= i < |Printable(s)| ==> !IsControl(Printable(s)[i])
    ensures NoControls(s) ==> Printable(s) == s
  {
    PrintableHasNoControls(s);
    PrintableKeepsText(s);
    FittingIsMaximal(line, Printable(s));
  }

  lemma {:induction false} PrintableKeepsText(s: string)
    ensures NoControls(s) ==> Printable(s) == s
    ensures multiset(Printable(s)) <= multiset(s)
  {
    if s != [] {
      PrintableKeepsText(s[1..]);
      assert s == [s[0]] + s[1..];
    }
  }

  // ---------------------------------------------------------------- the laws

  lemma {:induction false} PrintableHasNoControls(s: string)
    ensures NoControls(Printable(s))
  {
    if s != [] {
      PrintableHasNoControls(s[1..]);
    }
  }

  lemma SpliceLength(line: Line, s: string)
    requires line.cursor <= |line.chars|
    ensures ByteLen(Splice(line, s).chars) == ByteLen(line.chars) + ByteLen(s)
  {
    var before, after := line.chars[..line.cursor], line.chars[line.cursor..];
    ByteLenAppend(before + s, after);
    ByteLenAppend(before, s);
    ByteLenAppend(before, after);
    assert before + after == line.chars;
  }

  lemma SpliceTwice(line: Line, a: string, b: string)
    requires line.cursor <= |line.chars|
    ensures Splice(Splice(line, a), b) == Splice(line, a + b)
  {
    var first := Splice(line, a);
    assert first.chars[..first.cursor] == line.chars[..line.cursor] + a;
    assert first.chars[first.cursor..] == line.chars[line.cursor..];
  }

  lemma SpliceNothing(line: Line)
    requires line.cursor <= |line.chars|
    ensures Splice(line, []) == line
  {
  }

  /** What a paste inserts fits, and it stops only at a character that does not. */
  lemma {:induction false} FittingIsMaximal(line: Line, s: string)
    requires line.cursor <= |line.chars| && NoControls(s) && ByteLen(line.chars) <= MAX_INPUT_BYTES
    ensures var n := Fitting(line, s);
      && ByteLen(line.chars) + ByteLen(s[..n]) <= MAX_INPUT_BYTES
      && (n < |s| ==> MAX_INPUT_BYTES < ByteLen(line.chars) + ByteLen(s[..n + 1]))
    decreases |s|
  {
    if s != [] {
      SpliceLength(line, [s[0]]);
      assert s[..1] == [s[0]];
      if Accepts(line, s[0]) {
        var n := Fitting(line, s);
        FittingIsMaximal(Splice(line, [s[0]]), s[1..]);
        assert s[..n][1..] == s[1..][..n - 1];
        if n < |s| {
          assert s[..n + 1][1..] == s[1..][..n];
        }
      }
    }
  }

  lemma RemovalShortens(chars: string, k: nat)
    requires k < |chars|
    ensures ByteLen(chars[..k] + chars[k + 1..]) + CharLen(chars[k]) == ByteLen(chars)
  {
    var before, after := chars[..k], chars[k + 1..];
    ByteLenAppend(before, after);
    ByteLenAppend(before, [chars[k]] + after);
    ByteLenAppend([chars[k]], after);
    assert before + ([chars[k]] + after) == chars;
    assert ByteLen([chars[k]]) == CharLen(chars[k]);
  }

  lemma TypedStaysEditable(line: Line, c: char)
    requires Editable(line)
    ensures Editable(Typed(line, c))
  {
    SpliceLength(line, [c]);
  }

  lemma PastedStaysEditable(line: Line, s: string)
    requires Editable(line)
    ensures Editable(Pasted(line, s))
  {
    PrintableHasNoControls(s);
    FittingIsMaximal(line, Printable(s));
    SpliceLength(line, Printable(s)[..Fitting(line, Printable(s))]);
  }

  lemma RemovedStaysEditable(line: Line)
    requires Editable(line)
    ensures Editable(Erased(line)) && Editable(Deleted(line))
  {
    if line.cursor != 0 {
      RemovalShortens(line.chars, line.cursor - 1);
    }
    if line.cursor != |line.chars| {
      RemovalShortens(line.chars, line.cursor);
    }
  }

  lemma ApplyStaysEditable(line: Line, command: Command)
    requires Editable(line)
    ensures Editable(Apply(line, command))
  {
    match command
    case Insert(c) => TypedStaysEditable(line, c);
    case InsertText(s) => PastedStaysEditable(line, s);
    case Backspace => RemovedStaysEditable(line);
    case Delete => RemovedStaysEditable(line);
    case _ =>
  }

  /** Over any operation sequence the line stays bounded, free of control characters and in range. */
  lemma {:induction false} EveryRunStaysEditable(line: Line, commands: seq<Command>)
    requires Editable(line)
    ensures Editable(ApplyAll(line, commands))
    decreases |commands|
  {
    if commands != [] {
      ApplyStaysEditable(line, commands[0]);
      EveryRunStaysEditable(Apply(line, commands[0]), commands[1..]);
    }
  }

  /** Typing is undone by one backspace, and typing then moving left is undone by one delete. */
  lemma TypingIsUndone(line: Line, c: char)
    requires line.cursor <= |line.chars| && Accepts(line, c)
    ensures ApplyAll(line, [Insert(c), Backspace]) == line
    ensures ApplyAll(line, [Insert(c), MoveLeft, Delete]) == line
  {
    var typed := Apply(line, Insert(c));
    assert typed.chars[..line.cursor] == line.chars[..line.cursor];
    assert typed.chars[line.cursor + 1..] == line.chars[line.cursor..];
    assert ApplyAll(line, [Insert(c), Backspace]) == ApplyAll(typed, [Backspace]);
    assert [Insert(c), MoveLeft, Delete][1..] == [MoveLeft, Delete];
    var left := Apply(typed, MoveLeft);
    assert ApplyAll(typed, [MoveLeft, Delete]) == ApplyAll(left, [Delete]);
  }

  /** Backspace is moving left and deleting, except at the start, where it does nothing. */
  lemma BackspaceIsLeftDelete(line: Line)
    requires line.cursor <= |line.chars|
    ensures (Apply(line, Backspace) == Apply(Apply(line, MoveLeft), Delete))
      <==> (line.cursor != 0 || line.chars == [])
  {
    if line.cursor == 0 && line.chars != [] {
      assert |Apply(line, Delete).chars| != |line.chars|;
    }
  }

  /** Pasting is typing its printable characters one by one, up to the first that is refused. */
  lemma {:induction false} PastingIsTyping(line: Line, s: string)
    requires line.cursor <= |line.chars|
    ensures s != [] && !IsControl(s[0]) && Accepts(line, s[0]) ==>
      Pasted(line, s) == Pasted(Typed(line, s[0]), s[1..])
    ensures s != [] && !IsControl(s[0]) && !Accepts(line, s[0]) ==> Pasted(line, s) == line
    ensures s != [] && IsControl(s[0]) ==> Pasted(line, s) == Pasted(line, s[1..])
    ensures s == [] ==> Pasted(line, s) == line
  {
    SpliceNothing(line);
    if s != [] {
      assert IsControl(s[0]) ==> Printable(s) == Printable(s[1..]);
      if !IsControl(s[0]) && Accepts(line, s[0]) {
        var typed := Splice(line, [s[0]]);
        var n := Fitting(typed, Printable(s[1..]));
        assert Printable(s)[1..] == Printable(s[1..]);
        SpliceTwice(line, [s[0]], Printable(s[1..])[..n]);
        assert Printable(s)[..n + 1] == [s[0]] + Printable(s[1..])[..n];
      }
    }
  }

  /** How many printable characters a paste leaves out. */
  function LeftOut(line: Line, s: string): (n: int)
    requires line.cursor <= |line.chars|
  {
    |Printable(s)| - Fitting(line, Printable(s))
  }

  /** One round of the paste loop neither adds to what is left out nor takes from it. */
  lemma LeftOutByRound(line: Line, s: string)
    requires line.cursor <= |line.chars| && s != []
    ensures IsControl(s[0]) ==> LeftOut(line, s) == LeftOut(line, s[1..])
    ensures !IsControl(s[0]) && Accepts(line, s[0]) ==> LeftOut(line, s) == LeftOut(Typed(line, s[0]), s[1..])
    ensures !IsControl(s[0]) && !Accepts(line, s[0]) ==> LeftOut(line, s) > 0
  {
    if IsControl(s[0]) {
      assert Printable(s) == Printable(s[1..]);
    } else {
      assert Printable(s) == [s[0]] + Printable(s[1..]);
      assert Printable(s)[1..] == Printable(s[1..]);
    }
  }

  // ------------------------------------------------------------ the program

  /** `String::insert`, which panics off a character boundary. */
  function InsertAt(text: seq<byte>, index: nat, c: char): (r: seq<byte>)
    requires index <= |text| && IsCharBoundary(text, index)
  {
    text[..index] + EncodeChar(c) + text[index..]
  }

  /** `String::replace_range(start..end, "")`, which panics off character boundaries. */
  function RemoveRange(text: seq<byte>, start: nat, end: nat): (r: seq<byte>)
    requires start <= end <= |text| && IsCharBoundary(text, start) && IsCharBoundary(text, end)
  {
    text[..start] + text[end..]
  }

  /** Cutting one character out of the bytes cuts it out of the string. */
  lemma RemovalIsExact(chars: string, k: nat)
    requires k < |chars|
    ensures var start, end := ByteLen(chars[..k]), ByteLen(chars[..k + 1]);
      && start <= end <= |Encode(chars)|
      && Encode(chars)[..start] + Encode(chars)[end..] == Encode(chars[..k] + chars[k + 1..])
  {
    StepOver(chars, k);
    PrefixEndIsBoundary(chars, k);
    PrefixEndIsBoundary(chars, k + 1);
    EncodeAppend(chars[..k], chars[k + 1..]);
  }

  /** Writing one character into the bytes writes it into the string. */
  lemma InsertionIsExact(chars: string, k: nat, c: char)
    requires k <= |chars|
    ensures var index := ByteLen(chars[..k]);
      && index <= |Encode(chars)|
      && Encode(chars)[..index] + EncodeChar(c) + Encode(chars)[index..]
         == Encode(chars[..k] + [c] + chars[k..])
  {
    PrefixEndIsBoundary(chars, k);
    EncodeAppend(chars[..k] + [c], chars[k..]);
    EncodeAppend(chars[..k], [c]);
    assert Encode([c]) == EncodeChar(c);
  }

  class InputEditor {
    var text: seq<byte>
    var cursor: nat
    ghost var Chars: string

    ghost predicate Valid()
      reads this
    {
      text == Encode(Chars) && Editable(View())
    }

    ghost function View(): (line: Line)
      reads this
    {
      Line(Chars, cursor)
    }

    constructor Default()
      ensures Valid() && View() == EMPTY_LINE
    {
      text, cursor, Chars := [], 0, "";
    }

    /** The byte offset of the `index`th character, or the end of the text. */
    method ByteIndex(index: nat) returns (offset: nat)
      requires Valid()
      ensures offset == ByteLen(Chars[..if index < |Chars| then index else |Chars|]) <= |text|
      ensures IsCharBoundary(text, offset)
    {
      offset := 0;
      ghost var n := 0;
      var left: nat := index;
      assert Chars[..0] == [];
      while left > 0 && offset < |text|
        invariant left + n == index && n <= |Chars|
        invariant offset == ByteLen(Chars[..n]) <= |text|
      {
        StepOver(Chars, n);
        StepOver(Chars, n + 1);
        offset, left, n := offset + Width(text[offset]), left - 1, n + 1;
      }
      StepOver(Chars, n);
      PrefixEndIsBoundary(Chars, n);
    }

    method CharCount() returns (count: nat)
      requires Valid()
      ensures count == |Chars|
    {
      count := 0;
      var offset := 0;
      assert Chars[..0] == [];
      while offset < |text|
        invariant count <= |Chars| && offset == ByteLen(Chars[..count]) <= |text|
      {
        StepOver(Chars, count);
        StepOver(Chars, count + 1);
        offset, count := offset + Width(text[offset]), count + 1;
      }
      StepOver(Chars, count);
    }

    method Insert(c: char) returns (accepted: bool)
      requires Valid()
      modifies this
      ensures Valid()
      ensures accepted == (!IsControl(c) && ByteLen(old(Chars)) + CharLen(c) <= 4096)
      ensures accepted ==> Chars == old(Chars)[..old(cursor)] + [c] + old(Chars)[old(cursor)..]
      ensures cursor == old(cursor) + (if accepted then 1 else 0)
      ensures View() == old(Typed(View(), c))
    {
      EncodeLength(Chars);
      if IsControl(c) || |text| + CharLen(c) > MAX_INPUT_BYTES {
        return false;
      }
      TypedStaysEditable(View(), c);
      var index := ByteIndex(cursor);
      InsertionIsExact(Chars, cursor, c);
      text := InsertAt(text, index, c);
      Chars := Chars[..cursor] + [c] + Chars[cursor..];
      cursor := cursor + 1;
      return true;
    }

    method InsertText(s: string) returns (complete: bool)
      requires Valid()
      modifies this
      ensures Valid()
      ensures complete == (old(LeftOut(View(), s)) == 0)
      ensures View() == old(Pasted(View(), s))
    {
      complete := true;
      var i := 0;
      assert s[0..] == s;
      while i < |s|
        invariant i <= |s| && Valid()
        invariant Pasted(View(), s[i..]) == old(Pasted(View(), s))
        invariant LeftOut(View(), s[i..]) == old(LeftOut(View(), s))
      {
        assert s[i..][1..] == s[i + 1..];
        PastingIsTyping(View(), s[i..]);
        LeftOutByRound(View(), s[i..]);
        if !IsControl(s[i]) {
          var accepted := Insert(s[i]);
          if !accepted {
            return false;
          }
        }
        i := i + 1;
      }
      PastingIsTyping(View(), s[i..]);
    }

    method Backspace()
      requires Valid()
      modifies this
      ensures Valid() && View() == old(Erased(View()))
    {
      if cursor == 0 {
        return;
      }
      RemovedStaysEditable(View());
      var start := ByteIndex(cursor - 1);
      var end := ByteIndex(cursor);
      RemovalIsExact(Chars, cursor - 1);
      text := RemoveRange(text, start, end);
      Chars := Chars[..cursor - 1] + Chars[cursor..];
      cursor := cursor - 1;
    }

    method Delete()
      requires Valid()
      modifies this
      ensures Valid() && View() == old(Deleted(View()))
    {
      var count := CharCount();
      if cursor == count {
        return;
      }
      RemovedStaysEditable(View());
      var start := ByteIndex(cursor);
      var end := ByteIndex(cursor + 1);
      RemovalIsExact(Chars, cursor);
      text := RemoveRange(text, start, end);
      Chars := Chars[..cursor] + Chars[cursor + 1..];
    }

    method MoveLeft()
      requires Valid()
      modifies this`cursor
      ensures Valid() && View() == Line(old(Chars), if old(cursor) == 0 then 0 else old(cursor) - 1)
    {
      cursor := if cursor == 0 then 0 else cursor - 1;
    }

    method MoveRight()
      requires Valid()
      modifies this`cursor
      ensures Valid() && View() == Line(old(Chars), if old(cursor) == |Chars| then |Chars| else old(cursor) + 1)
    {
      var count := CharCount();
      cursor := if cursor + 1 < count then cursor + 1 else count;
    }

    method MoveHome()
      requires Valid()
      modifies this`cursor
      ensures Valid() && View() == Line(old(Chars), 0)
    {
      cursor := 0;
    }

    method MoveEnd()
      requires Valid()
      modifies this`cursor
      ensures Valid() && View() == Line(old(Chars), |Chars|)
    {
      cursor := CharCount();
    }

    method Clear()
      modifies this
      ensures Valid() && View() == EMPTY_LINE
    {
      text, Chars := [], "";
      cursor := 0;
    }

    method Take() returns (taken: seq<byte>)
      requires Valid()
      modifies this
      ensures taken == Encode(old(Chars)) && |taken| <= MAX_INPUT_BYTES
      ensures Valid() && View() == EMPTY_LINE
    {
      EncodeLength(Chars);
      cursor := 0;
      taken := text;
      text, Chars := [], "";
    }

    method Prefix() returns (prefix: seq<byte>)
      requires Valid()
      ensures prefix == Encode(Chars[..cursor])
    {
      var index := ByteIndex(cursor);
      PrefixEndIsBoundary(Chars, cursor);
      prefix := text[..index];
    }

    /** The whole buffer simulates the plain editor over any sequence of commands. */
    method Replay(commands: seq<Command>)
      requires Valid()
      modifies this
      ensures Valid() && View() == old(ApplyAll(View(), commands))
    {
      var i := 0;
      assert commands[0..] == commands;
      while i < |commands|
        invariant i <= |commands| && Valid()
        invariant ApplyAll(View(), commands[i..]) == old(ApplyAll(View(), commands))
      {
        assert commands[i..][0] == commands[i] && commands[i..][1..] == commands[i + 1..];
        match commands[i] {
          case Insert(c) => var _ := Insert(c);
          case InsertText(s) => var _ := InsertText(s);
          case Backspace => Backspace();
          case Delete => Delete();
          case MoveLeft => MoveLeft();
          case MoveRight => MoveRight();
          case MoveHome => MoveHome();
          case MoveEnd => MoveEnd();
          case Clear => Clear();
          case Take => var _ := Take();
        }
        i := i + 1;
      }
    }
  }
}
