/**
 * ConsoleFilter (components/provider.tsx): while mounted in a browser it
 * replaces `console.warn` and `console.error` with wrappers that drop messages
 * about hCaptcha and localhost, and forwards everything else to the functions
 * it replaced; its cleanup puts those functions back.
 */
module ConsoleFilter {
  import opened Wrappers

  /** A console argument: `undefined`, `null`, or a value with its `toString()`. */
  datatype Arg = Undefined | Null | Value(text: string)

  /** The two patched console slots. */
  datatype Channel = Warn | Error

  /**
   * A console function: the one the page started with, or a filtering wrapper
   * around whatever function was in the slot when it was installed.
   */
  datatype Handler = Original(channel: Channel) | Filtering(inner: Handler)

  /** A line actually written by an original console function. */
  datatype Output = Printed(channel: Channel, args: seq<Arg>)

  /** `t` occurs in `s` starting at index `i`. */
  predicate OccursAt(s: string, t: string, i: int) {
    0 <= i && i + |t| <= |s| && s[i..i + |t|] == t
  }

  /** `s.includes(t)`, by scanning the start positions from left to right. */
  function Includes(s: string, t: string): (r: bool)
    ensures r <==> exists i :: OccursAt(s, t, i)
  {
    if t <= s then
      assert OccursAt(s, t, 0);
      true
    else if s == [] then
      assert forall i :: OccursAt(s, t, i) ==> |t| == 0;
      false
    else
      var r := Includes(s[1..], t);
      assert forall i :: OccursAt(s[1..], t, i) ==> OccursAt(s, t, i + 1);
      assert forall i :: OccursAt(s, t, i) && i > 0 ==> OccursAt(s[1..], t, i - 1);
      r
  }

  /** Whoever contains a string contains each of its substrings. */
  lemma {:induction false} IncludesSubstring(s: string, t: string, u: string, j: int)
    requires Includes(s, t)
    requires OccursAt(t, u, j)
    ensures Includes(s, u)
  {
    var i :| OccursAt(s, t, i);
    forall k | 0 <= k < |u|
      ensures s[i + j + k] == u[k]
    {
      assert s[i..i + |t|][j + k] == t[j + k];
      assert t[j..j + |u|][k] == u[k];
    }
    assert s[i + j..i + j + |u|] == u;
    assert OccursAt(s, u, i + j);
  }

  /** `args[0]?.toString() || ''`: only the first argument is read. */
  function Message(args: seq<Arg>): (m: string)
    ensures m != "" ==> |args| > 0 && args[0] == Value(m)
    ensures |args| > 0 && args[0].Value? ==> m == args[0].text
  {
    if |args| == 0 then ""
    else match args[0]
      case Undefined => ""
      case Null => ""
      case Value(text) => text
  }

  /**
   * The suppression test of both wrappers. The "[hCaptcha]" test adds nothing
   * to the "hCaptcha" one, and an empty message is never suppressed.
   */
  function Suppressed(message: string): (r: bool)
    ensures r <==> Includes(message, "hCaptcha") || Includes(message, "localhost detected") ||
                   Includes(message, "Please use a valid host")
    ensures message == "" ==> !r
  {
    if Includes(message, "[hCaptcha]") then
      IncludesSubstring(message, "[hCaptcha]", "hCaptcha", 1);
      true
    else
      Includes(message, "hCaptcha") ||
      Includes(message, "localhost detected") ||
      Includes(message, "Please use a valid host")
  }

  /** The original console function a chain of wrappers ends in. */
  function Target(h: Handler): Channel {
    match h
    case Original(channel) => channel
    case Filtering(inner) => Target(inner)
  }

  /**
   * What calling the function `h` with `args` prints. A suppressed message
   * prints nothing through any wrapper; anything else reaches the original
   * function with the argument list unchanged.
   */
  function Invoke(h: Handler, args: seq<Arg>): (out: seq<Output>)
    ensures h.Filtering? && Suppressed(Message(args)) ==> out == []
    ensures !Suppressed(Message(args)) ==> out == [Printed(Target(h), args)]
    ensures |out| <= 1
  {
    match h
    case Original(channel) => [Printed(channel, args)]
    case Filtering(inner) =>
      if Suppressed(Message(args)) then [] else Invoke(inner, args)
  }

  /** The global `console` object, of which only the two patched slots matter. */
  class GlobalConsole {
    var warn: Handler
    var error: Handler

    constructor (warn: Handler, error: Handler)
      ensures this.warn == warn && this.error == error
    {
      this.warn := warn;
      this.error := error;
    }
  }

  /** The functions the effect saved, which its cleanup puts back. */
  datatype Saved = Saved(warn: Handler, error: Handler)

  /**
   * The mount effect. With `window` defined it saves both slots and wraps each
   * in a filter, returning the cleanup's saved values; otherwise it patches
   * nothing and returns no cleanup.
   */
  method Install(console: GlobalConsole, windowDefined: bool) returns (cleanup: Option<Saved>)
    modifies console
    ensures windowDefined ==>
      cleanup == Some(Saved(old(console.warn), old(console.error))) &&
      console.warn == Filtering(old(console.warn)) && console.error == Filtering(old(console.error))
    ensures !windowDefined ==> cleanup == None && unchanged(console)
  {
    if windowDefined {
      var originalWarn := console.warn;
      var originalError := console.error;
      console.warn := Filtering(originalWarn);
      console.error := Filtering(originalError);
      cleanup := Some(Saved(originalWarn, originalError));
    } else {
      cleanup := None;
    }
  }

  /** The effect's cleanup: both slots get back exactly the saved functions. */
  method Restore(console: GlobalConsole, saved: Saved)
    modifies console
    ensures console.warn == saved.warn && console.error == saved.error
  {
    console.warn := saved.warn;
    console.error := saved.error;
  }

  /**
   * Only the first argument decides: a patched function given the same first
   * argument either drops both calls or neither, whatever the later arguments
   * hold, and a call it does not drop reaches the replaced function with every
   * argument unchanged.
   */
  lemma {:induction false} LaterArgumentsIgnored(original: Handler, first: Arg, rest1: seq<Arg>, rest2: seq<Arg>)
    ensures Invoke(Filtering(original), [first] + rest1) == [] <==> Invoke(Filtering(original), [first] + rest2) == []
    ensures Invoke(Filtering(original), [first] + rest1) != [] ==>
      Invoke(Filtering(original), [first] + rest1) == [Printed(Target(original), [first] + rest1)]
  {
    assert Message([first] + rest1) == Message([first] + rest2);
  }
}
