/**
 * The character buffer in front of the lexer's reader: a push-back deque of
 * character codes. `peek` fills it from the reader only when it is empty,
 * `read` pops its front, and `putBack` pushes a string back onto its front.
 */
module CharBuffers {
  import opened Wrappers
  import opened Exceptions

  /** The code `read` returns at the end of the stream. */
  const EOS: int := -1

  /** A UTF-16 code unit that is also a Dafny character: in the Basic Multilingual Plane and not a surrogate. */
  type Unit = c: int | 0 <= c < 0xD800 || 0xE000 <= c < 0x1_0000

  /** What the reader and the buffer hand out: a unit or EOS. */
  type Code = c: int | c == -1 || 0 <= c < 0xD800 || 0xE000 <= c < 0x1_0000

  /** Java's `(char) c` for a unit. */
  function CharOf(u: Unit): (ch: char)
    ensures ch as int == u
  {
    u as char
  }

  /** A string whose characters are all single UTF-16 units, as every Java string of this model is. */
  predicate IsUnits(s: string) {
    forall i | 0 <= i < |s| :: s[i] as int < 0xD800 || 0xE000 <= s[i] as int < 0x1_0000
  }

  /** Java's `(int) str.charAt(i)` for every i. */
  function UnitsOf(s: string): (us: seq<Unit>)
    requires IsUnits(s)
    ensures |us| == |s|
    ensures forall i | 0 <= i < |s| :: us[i] == s[i] as int
  {
    seq(|s|, i requires 0 <= i < |s| => s[i] as int)
  }

  /** The text of a sequence of units. */
  function TextOf(us: seq<Unit>): (s: string)
    ensures |s| == |us|
  {
    seq(|us|, i requires 0 <= i < |us| => CharOf(us[i]))
  }

  /** The text of units holds exactly those units, one character each. */
  lemma TextOfUnits(us: seq<Unit>)
    ensures IsUnits(TextOf(us))
    ensures forall i | 0 <= i < |us| :: TextOf(us)[i] as int == us[i]
  {
  }

  lemma {:induction false} TextOfUnitsOf(s: string)
    requires IsUnits(s)
    ensures TextOf(UnitsOf(s)) == s
  {
    assert forall i | 0 <= i < |s| :: TextOf(UnitsOf(s))[i] == s[i] by {
      forall i | 0 <= i < |s|
        ensures TextOf(UnitsOf(s))[i] == s[i]
      {
        assert TextOf(UnitsOf(s))[i] as int == s[i] as int;
      }
    }
  }

  /** The first code of a stream: its first unit, or EOS when it is exhausted. */
  function Head(s: seq<Unit>): (c: Code)
    ensures c == EOS <==> s == []
  {
    if s == [] then EOS else s[0]
  }

  /** A stream after one `read`: one unit shorter, or still empty. */
  function Tail(s: seq<Unit>): (t: seq<Unit>)
    ensures s == [] ==> t == []
    ensures s != [] ==> [s[0]] + t == s
  {
    if s == [] then [] else s[1..]
  }
  /**
   * The buffer holds the first units of the stream, possibly followed by one
   * EOS (EOS is added only to an empty buffer, and only units are pushed in
   * front); the reader holds the rest of the stream, and once the EOS is
   * there it is exhausted.
   */
  ghost predicate Consistent(buffer: seq<Code>, input: seq<Unit>, atEnd: bool, stream: seq<Unit>) {
    (atEnd ==> input == []) &&
    |input| <= |stream| &&
    |buffer| == |stream| - |input| + (if atEnd then 1 else 0) &&
    (forall i {:trigger buffer[i]} | 0 <= i < |stream| - |input| :: buffer[i] == stream[i]) &&
    (atEnd ==> buffer[|buffer| - 1] == EOS) &&
    (forall i {:trigger input[i]} | 0 <= i < |input| :: stream[|stream| - |input| + i] == input[i])
  }

  /** Pushing units in front of the buffer keeps it consistent with the stream they are pushed onto. */
  lemma PushKeepsConsistent(units: seq<Unit>, buffer: seq<Code>, input: seq<Unit>, atEnd: bool, stream: seq<Unit>)
    requires Consistent(buffer, input, atEnd, stream)
    ensures Consistent(units + buffer, input, atEnd, units + stream)
  {
    var b, s := units + buffer, units + stream;
    forall i | 0 <= i < |s| - |input|
      ensures b[i] == s[i]
    {
      if i >= |units| {
        assert b[i] == buffer[i - |units|];
      }
    }
    forall i | 0 <= i < |input|
      ensures s[|s| - |input| + i] == input[i]
    {
      assert s[|s| - |input| + i] == stream[|stream| - |input| + i];
    }
  }

  /**
   * The buffer and the reader behind it. The reader is represented by the
   * units it has not delivered yet (`input`); reading from it takes the first
   * of them, or yields EOS once there are none.
   */
  class CharBuffer {
    var buffer: seq<Code>
    var input: seq<Unit>
    /** The number of reads made on the reader. */
    ghost var readerCalls: nat
    /** Whether the buffer ends with an EOS taken from the reader. */
    ghost var atEnd: bool
    /** The units `read` will return from now on, in order. */
    ghost var stream: seq<Unit>

    /**
     * The buffer holds the first units of the stream, possibly followed by one
     * EOS (EOS is added only to an empty buffer, and only units are pushed in
     * front); the reader holds the rest of the stream, and once the EOS is
     * there it is exhausted.
     */
    ghost predicate Valid()
      reads this
    {
      Consistent(buffer, input, atEnd, stream)
    }

    constructor(input: seq<Unit>)
      ensures Valid() && buffer == [] && this.input == input && readerCalls == 0
      ensures stream == input
    {
      this.input := input;
      buffer := [];
      readerCalls := 0;
      atEnd := false;
      stream := input;
    }

    /** `reader.read()`: the next unit of the input, or EOS when it is exhausted. */
    method ReaderRead() returns (c: Code)
      modifies this
      ensures buffer == old(buffer) && atEnd == old(atEnd) && stream == old(stream)
      ensures readerCalls == old(readerCalls) + 1
      ensures c == Head(old(input)) && input == Tail(old(input))
    {
      readerCalls := readerCalls + 1;
      if input == [] {
        c := EOS;
      } else {
        c := input[0];
        input := input[1..];
      }
    }

    /** `peek`: the next code without consuming it; the reader is asked for exactly one code when the buffer is empty. */
    method Peek() returns (c: Code)
      requires Valid()
      modifies this
      ensures Valid() && stream == old(stream)
      ensures c == Head(old(stream))
      ensures |buffer| > 0 && buffer[0] == c
      ensures old(buffer) != [] ==> buffer == old(buffer) && input == old(input) && readerCalls == old(readerCalls)
      ensures old(buffer) == [] ==> buffer == [c] && readerCalls == old(readerCalls) + 1
    {
      if buffer == [] {
        var next := ReaderRead();
        buffer := buffer + [next];
        if next == EOS {
          atEnd := true;
        }
      }
      c := buffer[0];
    }

    /** `read`: what `peek` would return, removed from the front of the buffer. */
    method Read() returns (c: Code)
      requires Valid()
      modifies this
      ensures Valid()
      ensures c == Head(old(stream)) && stream == Tail(old(stream))
      ensures old(buffer) != [] ==> c == old(buffer)[0] && buffer == old(buffer)[1..] && input == old(input)
    {
      c := Peek();
      buffer := buffer[1..];
      if c == EOS {
        atEnd := false;
      }
      stream := Tail(stream);
    }

    /**
     * `putBack`: null and the empty string are rejected and leave the buffer as
     * it was; otherwise the string's units go in front of the buffer, so the
     * next reads return them in order. The reader is never touched.
     */
    method PutBack(str: Option<string>) returns (r: Result<()>)
      requires Valid()
      requires str.Some? ==> IsUnits(str.value)
      modifies this
      ensures Valid() && input == old(input) && readerCalls == old(readerCalls)
      ensures r.Err? <==> str.None? || str.value == ""
      ensures r.Err? ==> r.error == IllegalArgument && buffer == old(buffer)
      ensures r.Ok? ==> buffer == UnitsOf(str.value) + old(buffer)
      ensures r.Ok? ==> stream == UnitsOf(str.value) + old(stream)
    {
      if str.None? {
        return Err(IllegalArgument);
      }
      var s := str.value;
      if s == "" {
        return Err(IllegalArgument);
      }
      ghost var units := UnitsOf(s);
      for i := |s| downto 0
        invariant buffer == units[i..] + old(buffer)
        invariant input == old(input) && readerCalls == old(readerCalls)
        invariant atEnd == old(atEnd) && stream == old(stream)
      {
        assert units[i..] == [units[i]] + units[i + 1..];
        buffer := [s[i] as int] + buffer;
      }
      assert units[0..] == units;
      PushKeepsConsistent(units, old(buffer), input, atEnd, stream);
      stream := units + stream;
      return Ok(());
    }
  }
}
