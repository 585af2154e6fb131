/**
 Model of edit mode (js/editor.js): the keydown decoder that turns a key code
 and its modifiers into one wheel editing command, the shift table it uses,
 and the load/unload/toggle switch on the wheel's edit mode.
 */
module Edit {
  import opened Spinner

  /** The wheel operation a keydown asks for. `NoOp` is a key the handler
      swallows without effect; `NotIntercepted` is one it leaves to the page. */
  datatype Command =
    | Insert(c: char)
    | Del
    | Backspace
    | Left
    | Up
    | Right
    | Down
    | NextSegment
    | PrevSegment
    | NoOp
    | NotIntercepted

  /** Key codes outside 48..90 that produce a character. */
  const SymbolCodes: set<int> := {192, 32, 109, 219, 221, 220, 222, 186, 187, 188, 189, 190, 191}

  /** Key codes of the editing and navigation keys: delete, backspace, the four arrows, tab. */
  const ControlCodes: set<int> := {46, 8, 37, 38, 39, 40, 9}

  /** True of the key codes for which the handler computes a character. */
  predicate IsCharKey(which: int)
  {
    48 <= which <= 90 || which in SymbolCodes
  }

  /** True of the commands that the control-key dispatch issues. */
  predicate IsControl(cmd: Command)
  {
    cmd.Del? || cmd.Backspace? || cmd.Left? || cmd.Up? || cmd.Right? || cmd.Down? ||
    cmd.NextSegment? || cmd.PrevSegment?
  }

  /** The character a shifted key produces instead of its plain one. Backslash
      maps to itself because the pipe is reserved as a separator. */
  function ShiftMap(): (r: map<char, char>)
    ensures forall k :: k in r ==> ' ' <= k <= '~' && !('A' <= k <= 'Z')
    ensures forall k :: k in r ==> ' ' <= r[k] <= '~' && r[k] != '|'
  {
    map[
      '1' := '!', '2' := '@', '3' := '#', '4' := '$', '5' := '%',
      '6' := '^', '7' := '&', '8' := '*', '9' := '(', '0' := ')',
      ';' := ':', '=' := '+', '`' := '~', '-' := '_', '[' := '{',
      ']' := '}', '\\' := '\\', '\'' := '"', ',' := '<', '.' := '>',
      '/' := '?'
    ]
  }

  /** The character the handler computes for a key code before modifiers,
      as a string that is empty when the code produces none. */
  function KeyLetter(which: int): (r: string)
    ensures |r| <= 1
    ensures r != "" <==> IsCharKey(which)
  {
    if 48 <= which <= 90 then [which as char]
    else if which == 192 then "`"
    else if which == 32 then " "
    else if which == 109 then "-"
    else if which == 219 then "["
    else if which == 221 then "]"
    else if which == 220 then "\\"
    else if which == 222 then "'"
    else if which == 186 then ";"
    else if which == 187 then "="
    else if which == 188 then ","
    else if which == 189 then "-"
    else if which == 190 then "."
    else if which == 191 then "/"
    else ""
  }

  /** String.prototype.toLowerCase on one character of the ASCII range. */
  function ToLower(c: char): (r: char)
    ensures !('A' <= r <= 'Z')
    ensures 'A' <= c <= 'Z' ==> 'a' <= r <= 'z' && r as int - c as int == 32
    ensures !('A' <= c <= 'Z') ==> r == c
  {
    if 'A' <= c <= 'Z' then (c as int + 32) as char else c
  }

  /** The character inserted for `c`: its shifted form if shift is held and it
      has one, unchanged if shift is held and it has none, lower-cased otherwise. */
  function Modified(c: char, shift: bool): (r: char)
    ensures shift && c in ShiftMap() ==> r == ShiftMap()[c]
    ensures shift && c !in ShiftMap() ==> r == c
    ensures !shift ==> !('A' <= r <= 'Z')
    ensures ' ' <= c <= '~' && c != '|' ==> ' ' <= r <= '~' && r != '|'
  {
    if shift then (if c in ShiftMap() then ShiftMap()[c] else c) else ToLower(c)
  }

  /** The control-key dispatch: the command for delete, backspace, the arrows
      and tab (previous segment with shift), nothing for any other code. */
  function ControlCommand(which: int, shift: bool): (r: Command)
    ensures IsControl(r) <==> which in ControlCodes
    ensures !IsControl(r) ==> r == NoOp
  {
    if which == 46 then Del
    else if which == 8 then Backspace
    else if which == 37 then Left
    else if which == 38 then Up
    else if which == 39 then Right
    else if which == 40 then Down
    else if which == 9 then (if shift then PrevSegment else NextSegment)
    else NoOp
  }

  /**
   The command a keydown issues while edit mode is loaded. With alt or ctrl
   held the key is left to the page; otherwise a character key inserts its
   character and a control key issues its command.
   */
  function Decode(which: int, shift: bool, alt: bool, ctrl: bool): (r: Command)
    ensures r == NotIntercepted <==> alt || ctrl
    ensures r.Insert? <==> !alt && !ctrl && IsCharKey(which)
    ensures IsControl(r) <==> !alt && !ctrl && which in ControlCodes
    ensures r == NoOp <==> !alt && !ctrl && !IsCharKey(which) && which !in ControlCodes
  {
    if alt || ctrl then NotIntercepted
    else
      var letter := KeyLetter(which);
      if letter != "" then Insert(Modified(letter[0], shift))
      else ControlCommand(which, shift)
  }

  /** No key both produces a character and is a control key, so the handler,
      which inserts first and then dispatches control keys, calls at most one
      wheel operation per keydown; Decode loses nothing by returning one command. */
  lemma CharAndControlKeysDisjoint(which: int, shift: bool)
    ensures KeyLetter(which) != "" ==> ControlCommand(which, shift) == NoOp
    ensures ControlCommand(which, shift) != NoOp ==> KeyLetter(which) == ""
  {
  }

  /** Letter keys insert lower-case letters, or the capital with shift. */
  lemma LetterKeys(which: int)
    requires 65 <= which <= 90
    ensures Decode(which, false, false, false) == Insert((which + 32) as char)
    ensures Decode(which, true, false, false) == Insert(which as char)
    ensures 'a' <= Decode(which, false, false, false).c <= 'z'
  {
  }

  /** Every code from 48 to 90 inserts its own character, lower-cased; the
      codes 58 to 64 between the digits and the letters included. */
  lemma CharCodes(which: int)
    requires 48 <= which <= 90
    ensures Decode(which, false, false, false) == Insert(ToLower(which as char))
    ensures !(65 <= which <= 90) ==> Decode(which, false, false, false) == Insert(which as char)
  {
  }

  /** Digit keys insert the digit, or the symbol above it with shift. */
  lemma DigitKeys(which: int)
    requires 48 <= which <= 57
    ensures Decode(which, false, false, false) == Insert(which as char)
    ensures Decode(which, true, false, false) == Insert(ShiftMap()[which as char])
  {
  }

  /** The fixed characters of the quote, bracket, backslash and space keys. */
  lemma SymbolKeys()
    ensures Decode(192, false, false, false) == Insert('`')
    ensures Decode(32, false, false, false) == Insert(' ')
    ensures Decode(32, true, false, false) == Insert(' ')
    ensures Decode(219, false, false, false) == Insert('[')
    ensures Decode(221, false, false, false) == Insert(']')
    ensures Decode(220, false, false, false) == Insert('\\')
    ensures Decode(222, false, false, false) == Insert('\'')
  {
  }

  /** The fixed characters of the semicolon, equals, comma, period and slash keys. */
  lemma PunctuationKeys()
    ensures Decode(186, false, false, false) == Insert(';')
    ensures Decode(187, false, false, false) == Insert('=')
    ensures Decode(188, false, false, false) == Insert(',')
    ensures Decode(190, false, false, false) == Insert('.')
    ensures Decode(191, false, false, false) == Insert('/')
  {
  }

  /** The shifted characters of the quote, bracket and backslash keys. */
  lemma ShiftedSymbolKeys()
    ensures Decode(192, true, false, false) == Insert('~')
    ensures Decode(219, true, false, false) == Insert('{')
    ensures Decode(220, true, false, false) == Insert('\\')
    ensures Decode(221, true, false, false) == Insert('}')
    ensures Decode(222, true, false, false) == Insert('"')
  {
  }

  /** The shifted characters of the semicolon, equals, comma, period and slash keys. */
  lemma ShiftedPunctuationKeys()
    ensures Decode(186, true, false, false) == Insert(':')
    ensures Decode(187, true, false, false) == Insert('+')
    ensures Decode(188, true, false, false) == Insert('<')
    ensures Decode(190, true, false, false) == Insert('>')
    ensures Decode(191, true, false, false) == Insert('?')
  {
  }

  /** The minus on the numeric pad (109) and on the main keyboard (189) give
      the same character: '-', or '_' with shift. */
  lemma MinusKeys(shift: bool)
    ensures Decode(109, shift, false, false) == Decode(189, shift, false, false)
    ensures Decode(109, false, false, false) == Insert('-')
    ensures Decode(109, true, false, false) == Insert('_')
  {
  }

  /** Shifted backslash stays a backslash: no key ever inserts the pipe, and
      every inserted character is printable ASCII. */
  lemma InsertsPrintableNeverPipe(which: int, shift: bool, alt: bool, ctrl: bool)
    ensures Decode(which, shift, alt, ctrl).Insert? ==>
              ' ' <= Decode(which, shift, alt, ctrl).c <= '~' && Decode(which, shift, alt, ctrl).c != '|'
  {
  }

  /** The control keys and their commands; tab with shift goes back a segment. */
  lemma ControlKeys(shift: bool)
    ensures Decode(46, shift, false, false) == Del
    ensures Decode(8, shift, false, false) == Backspace
    ensures Decode(37, shift, false, false) == Left
    ensures Decode(38, shift, false, false) == Up
    ensures Decode(39, shift, false, false) == Right
    ensures Decode(40, shift, false, false) == Down
    ensures Decode(9, false, false, false) == NextSegment
    ensures Decode(9, true, false, false) == PrevSegment
  {
  }

  /** The edit-mode switch for one wheel. `listening` is whether its keydown
      handler is bound on the window. */
  class Editor {
    const wheel: Wheel
    var listening: bool

    /** Edit mode is on exactly while the key handler is bound. */
    ghost predicate Valid()
      reads this, wheel
    {
      listening == wheel.editMode
    }

    constructor (wheel: Wheel)
      ensures this.wheel == wheel && !listening
    {
      this.wheel := wheel;
      listening := false;
    }

    method Load()
      modifies this`listening, wheel`editMode
      ensures wheel.editMode && listening && Valid()
    {
      wheel.editMode := true;
      listening := true;
    }

    method Unload()
      modifies this`listening, wheel`editMode
      ensures !wheel.editMode && !listening && Valid()
    {
      wheel.editMode := false;
      listening := false;
    }

    /** Flips edit mode, so two toggles restore the original mode. */
    method Toggle()
      modifies this`listening, wheel`editMode
      ensures wheel.editMode == !old(wheel.editMode)
      ensures Valid()
    {
      if wheel.editMode {
        Unload();
      } else {
        Load();
      }
    }

    /** The command a keydown on the window issues: the decoded one while the
        handler is bound, none otherwise. */
    method KeyDown(which: int, shift: bool, alt: bool, ctrl: bool) returns (cmd: Command)
      requires Valid()
      ensures wheel.editMode ==> cmd == Decode(which, shift, alt, ctrl)
      ensures !wheel.editMode ==> cmd == NotIntercepted
    {
      if listening {
        cmd := Decode(which, shift, alt, ctrl);
      } else {
        cmd := NotIntercepted;
      }
    }
  }
}
