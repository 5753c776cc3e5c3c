/**
 The three string operations of the host language that the orchestrator
 relies on: splitting at the first separator (`str.partition`), the
 substring test (`in` on strings) and filling the positional slot `{0}`
 of a pattern (`str.format` with one argument).
 */
module Strings {

  /** `sub` occurs in `s` starting at index `i`. */
  ghost predicate OccursAt(s: string, sub: string, i: int)
  {
    0 <= i && i + |sub| <= |s| && s[i..i + |sub|] == sub
  }

  /** `s` starts with `pre`. */
  predicate StartsWith(s: string, pre: string)
  {
    |pre| <= |s| && s[..|pre|] == pre
  }

  /** `s` ends with `suf`. */
  predicate EndsWith(s: string, suf: string)
  {
    |suf| <= |s| && s[|s| - |suf|..] == suf
  }

  /**
   Splits `s` at the first occurrence of `sep`: the text before it, whether
   it was found, and the text after it. Without a separator the whole string
   is the prefix and the rest is empty.
   */
  function Partition(s: string, sep: char): (r: (string, bool, string))
    ensures sep !in r.0
    ensures r.1 <==> sep in s
    ensures r.1 ==> s == r.0 + [sep] + r.2
    ensures !r.1 ==> r.0 == s && r.2 == ""
  {
    if s == [] then ("", false, "")
    else if s[0] == sep then ("", true, s[1..])
    else
      var (prefix, found, rest) := Partition(s[1..], sep);
      ([s[0]] + prefix, found, rest)
  }

  /** The split at the first separator is the only one whose prefix has no separator. */
  lemma {:induction false} PartitionAtFirst(prefix: string, sep: char, rest: string)
    requires sep !in prefix
    ensures Partition(prefix + [sep] + rest, sep) == (prefix, true, rest)
  {
    var s := prefix + [sep] + rest;
    if prefix == [] {
      assert s[0] == sep && s[1..] == rest;
    } else {
      assert s[0] == prefix[0] != sep;
      assert s[1..] == prefix[1..] + [sep] + rest;
      PartitionAtFirst(prefix[1..], sep, rest);
      assert [prefix[0]] + prefix[1..] == prefix;
    }
  }

  /** Moving one character to the right shifts every occurrence by one. */
  lemma OccursAtTail(s: string, sub: string, i: int)
    requires s != [] && 0 <= i
    ensures OccursAt(s[1..], sub, i) <==> OccursAt(s, sub, i + 1)
  {
    if 0 <= i && i + |sub| <= |s| - 1 {
      assert s[1..][i..i + |sub|] == s[i + 1..i + 1 + |sub|];
    }
  }

  /** The substring test `sub in s`. */
  function Contains(s: string, sub: string): (b: bool)
    ensures b <==> exists i :: OccursAt(s, sub, i)
    decreases |s|
  {
    if |s| < |sub| then false
    else if s[..|sub|] == sub then
      assert OccursAt(s, sub, 0);
      true
    else
      var b := Contains(s[1..], sub);
      assert b ==> exists i :: OccursAt(s, sub, i) by {
        if b {
          var j :| OccursAt(s[1..], sub, j);
          OccursAtTail(s, sub, j);
        }
      }
      assert (exists i :: OccursAt(s, sub, i)) ==> b by {
        if exists i :: OccursAt(s, sub, i) {
          var i :| OccursAt(s, sub, i);
          assert i != 0;
          OccursAtTail(s, sub, i - 1);
        }
      }
      b
  }

  /** A string that lacks some character of `sub` cannot contain `sub`. */
  lemma MissingCharRulesOut(s: string, sub: string, k: nat)
    requires k < |sub| && sub[k] !in s
    ensures !Contains(s, sub)
  {
  }

  /** A string contains every part it is glued from. */
  lemma ContainsMiddle(x: string, sub: string, y: string)
    ensures Contains(x + sub + y, sub)
  {
    assert OccursAt(x + sub + y, sub, |x|);
  }

  /** The slot that the pattern's single positional argument fills. */
  const Slot: string := "{0}"

  /**
   Fills every `{0}` slot of `pattern` with `arg`, scanning left to right
   (`pattern.format(arg)` for patterns whose only braces are `{0}` slots).
   */
  function ReplaceSlot(pattern: string, arg: string): (filled: string)
    decreases |pattern|
  {
    if |pattern| < |Slot| then pattern
    else if pattern[..|Slot|] == Slot then arg + ReplaceSlot(pattern[|Slot|..], arg)
    else [pattern[0]] + ReplaceSlot(pattern[1..], arg)
  }

  /** A pattern without braces has no slot and is returned unchanged. */
  lemma {:induction false} ReplaceSlotNoBrace(pattern: string, arg: string)
    requires '{' !in pattern
    ensures ReplaceSlot(pattern, arg) == pattern
    decreases |pattern|
  {
    if |pattern| >= |Slot| {
      assert pattern[..|Slot|] != Slot by { assert pattern[..|Slot|][0] == pattern[0]; }
      ReplaceSlotNoBrace(pattern[1..], arg);
      assert [pattern[0]] + pattern[1..] == pattern;
    }
  }

  /** A character other than an opening brace is copied as it is. */
  lemma ReplaceSlotLiteralHead(c: char, tail: string, arg: string)
    requires c != '{'
    ensures ReplaceSlot([c] + tail, arg) == [c] + ReplaceSlot(tail, arg)
  {
    var p := [c] + tail;
    assert p[0] == c;
    assert p[1..] == tail;
    if |p| >= |Slot| {
      assert p[..|Slot|][0] == c;
    }
  }

  /** A slot at the front is replaced by the argument. */
  lemma ReplaceSlotHead(rest: string, arg: string)
    ensures ReplaceSlot(Slot + rest, arg) == arg + ReplaceSlot(rest, arg)
  {
    var p := Slot + rest;
    assert p[..|Slot|] == Slot;
    assert p[|Slot|..] == rest;
  }

  /** Peeling the first character off the left part of a concatenation. */
  lemma ConcatHead(x: string, y: string, z: string)
    requires x != []
    ensures x + y + z == [x[0]] + (x[1..] + y + z)
  {
  }

  /**
   A literal run without braces is copied, and the slot that follows it is
   filled with the argument.
   */
  lemma {:induction false} ReplaceSlotAfterLiteral(lit: string, rest: string, arg: string)
    requires '{' !in lit
    ensures ReplaceSlot(lit + Slot + rest, arg) == lit + arg + ReplaceSlot(rest, arg)
  {
    if lit == [] {
      assert lit + Slot + rest == Slot + rest;
      ReplaceSlotHead(rest, arg);
    } else {
      var filled := ReplaceSlot(rest, arg);
      ConcatHead(lit, Slot, rest);
      ReplaceSlotLiteralHead(lit[0], lit[1..] + Slot + rest, arg);
      ReplaceSlotAfterLiteral(lit[1..], rest, arg);
      ConcatHead(lit, arg, filled);
    }
  }

  /** A pattern `lit + "{0}" + tail`, braces only in the slot, becomes `lit + arg + tail`. */
  lemma FillSingleSlot(lit: string, tail: string, arg: string)
    requires '{' !in lit && '{' !in tail
    ensures ReplaceSlot(lit + Slot + tail, arg) == lit + arg + tail
  {
    ReplaceSlotAfterLiteral(lit, tail, arg);
    ReplaceSlotNoBrace(tail, arg);
  }
}
