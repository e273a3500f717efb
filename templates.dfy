/**
 * SQL fragment templates. A template is the literal text around its slots:
 * n slots need n + 1 literals. Filling a template ('...{}...'.format(key) or
 * '...%s...%s...%s...' % (a, b, c)) puts each argument into its slot, in
 * order. Escapes ('{{', '%%') and the literal text itself are left abstract.
 */
module Templates {
  import opened Wrappers

  /** Literal text around the slots of a template. */
  type Template = lits: seq<string> | |lits| >= 1 witness [""]

  /** A template with exactly one slot, like the encrypt templates. */
  type OneSlotTemplate = lits: seq<string> | |lits| == 2 witness ["", ""]

  /** A template with exactly three slots, like the decrypt template. */
  type ThreeSlotTemplate = lits: seq<string> | |lits| == 4 witness ["", "", "", ""]

  function TotalLength(ss: seq<string>): nat
    decreases |ss|
  {
    if ss == [] then 0 else |ss[0]| + TotalLength(ss[1..])
  }

  /** The template's literals with the arguments in its slots. */
  function Render(t: seq<string>, args: seq<string>): (r: string)
    requires |t| == |args| + 1
    ensures |r| == TotalLength(t) + TotalLength(args)
    decreases |args|
  {
    if args == [] then t[0] else t[0] + args[0] + Render(t[1..], args[1..])
  }

  /** Where slot i begins in the rendered text. */
  function SlotOffset(t: seq<string>, args: seq<string>, i: nat): nat
    requires |t| == |args| + 1 && i < |args|
    decreases i
  {
    if i == 0 then |t[0]| else |t[0]| + |args[0]| + SlotOffset(t[1..], args[1..], i - 1)
  }

  /** Where literal i begins in the rendered text. */
  function LiteralOffset(t: seq<string>, args: seq<string>, i: nat): nat
    requires |t| == |args| + 1 && i < |t|
    decreases i
  {
    if i == 0 then 0 else |t[0]| + |args[0]| + LiteralOffset(t[1..], args[1..], i - 1)
  }

  /** A slice that lies wholly in the second part of a concatenation. */
  lemma SliceRight(p: string, q: string, i: nat, j: nat)
    requires |p| <= i <= j <= |p| + |q|
    ensures (p + q)[i..j] == q[i - |p|..j - |p|]
  {
  }

  /** Argument i stands, whole and unchanged, at its slot's offset. */
  lemma {:induction false} RenderPlacesArgument(t: seq<string>, args: seq<string>, i: nat)
    requires |t| == |args| + 1 && i < |args|
    ensures SlotOffset(t, args, i) + |args[i]| <= |Render(t, args)|
    ensures Render(t, args)[SlotOffset(t, args, i)..SlotOffset(t, args, i) + |args[i]|] == args[i]
    decreases i
  {
    var head := t[0] + args[0];
    var tail := Render(t[1..], args[1..]);
    assert Render(t, args) == head + tail;
    if i == 0 {
      assert (head + tail)[|t[0]|..|head|] == args[0];
    } else {
      RenderPlacesArgument(t[1..], args[1..], i - 1);
      var o := SlotOffset(t[1..], args[1..], i - 1);
      SliceRight(head, tail, |head| + o, |head| + o + |args[i]|);
    }
  }

  /** Literal i stands, unchanged, at its offset: filling never alters the template's own text. */
  lemma {:induction false} RenderKeepsLiteral(t: seq<string>, args: seq<string>, i: nat)
    requires |t| == |args| + 1 && i < |t|
    ensures LiteralOffset(t, args, i) + |t[i]| <= |Render(t, args)|
    ensures Render(t, args)[LiteralOffset(t, args, i)..LiteralOffset(t, args, i) + |t[i]|] == t[i]
    decreases i
  {
    if args == [] {
    } else {
      var head := t[0] + args[0];
      var tail := Render(t[1..], args[1..]);
      assert Render(t, args) == head + tail;
      if i == 0 {
        assert (head + tail)[..|t[0]|] == t[0];
      } else {
        RenderKeepsLiteral(t[1..], args[1..], i - 1);
        var o := LiteralOffset(t[1..], args[1..], i - 1);
        SliceRight(head, tail, |head| + o, |head| + o + |t[i]|);
      }
    }
  }

  /**
   * s shows the filled template: every argument whole at its slot's offset
   * and every piece of literal text unchanged at its own offset.
   */
  predicate Shows(t: seq<string>, args: seq<string>, s: string)
    requires |t| == |args| + 1
  {
    && (forall i :: 0 <= i < |args| ==>
          SlotOffset(t, args, i) + |args[i]| <= |s|
          && s[SlotOffset(t, args, i)..SlotOffset(t, args, i) + |args[i]|] == args[i])
    && (forall i :: 0 <= i < |t| ==>
          LiteralOffset(t, args, i) + |t[i]| <= |s|
          && s[LiteralOffset(t, args, i)..LiteralOffset(t, args, i) + |t[i]|] == t[i])
  }

  /** Every filled template shows its arguments and its literal text in place. */
  lemma RenderShows(t: seq<string>, args: seq<string>)
    requires |t| == |args| + 1
    ensures Shows(t, args, Render(t, args))
  {
    forall i | 0 <= i < |args|
      ensures SlotOffset(t, args, i) + |args[i]| <= |Render(t, args)|
      ensures Render(t, args)[SlotOffset(t, args, i)..SlotOffset(t, args, i) + |args[i]|] == args[i]
    {
      RenderPlacesArgument(t, args, i);
    }
    forall i | 0 <= i < |t|
      ensures LiteralOffset(t, args, i) + |t[i]| <= |Render(t, args)|
      ensures Render(t, args)[LiteralOffset(t, args, i)..LiteralOffset(t, args, i) + |t[i]|] == t[i]
    {
      RenderKeepsLiteral(t, args, i);
    }
  }

  /**
   * Reads the argument back out of a one-slot template's text: None when the
   * text does not begin and end with the template's literals.
   */
  function ExtractArgument(t: OneSlotTemplate, s: string): (r: Option<string>)
    ensures r.Some? ==> Render(t, [r.value]) == s
  {
    if |t[0]| + |t[1]| <= |s| && s[..|t[0]|] == t[0] && s[|s| - |t[1]|..] == t[1] then
      var arg := s[|t[0]|..|s| - |t[1]|];
      assert s == s[..|t[0]|] + arg + s[|s| - |t[1]|..];
      Some(arg)
    else None
  }

  /** The argument of a one-slot template is recoverable from the filled text. */
  lemma ExtractRender(t: OneSlotTemplate, arg: string)
    ensures ExtractArgument(t, Render(t, [arg])) == Some(arg)
  {
    var s := Render(t, [arg]);
    assert Render(t[1..], []) == t[1];
    assert s == t[0] + arg + t[1];
    assert s[..|t[0]|] == t[0];
    assert s[|s| - |t[1]|..] == t[1];
    assert s[|t[0]|..|s| - |t[1]|] == arg;
  }

  /** Two different arguments never fill a one-slot template to the same text. */
  lemma RenderOneSlotInjective(t: OneSlotTemplate, a: string, b: string)
    requires Render(t, [a]) == Render(t, [b])
    ensures a == b
  {
    ExtractRender(t, a);
    ExtractRender(t, b);
  }
}
