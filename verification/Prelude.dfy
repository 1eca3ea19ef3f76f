/** Shared value types and the few string helpers several components use. */
module Prelude {

  datatype Option<+T> = None | Some(value: T)

  datatype Result<+T, +E> = Ok(value: T) | Err(error: E)

  predicate OccursAt(part: string, text: string, i: int)
  {
    0 <= i <= |text| - |part| && text[i..i + |part|] == part
  }

  // True when `part` occurs in `text` as a contiguous run.
  predicate Occurs(part: string, text: string)
  {
    exists i | 0 <= i <= |text| :: OccursAt(part, text, i)
  }

  // str.isspace: the characters that str.strip takes away.
  predicate IsSpace(c: char)
  {
    var n := c as int;
    || 9 <= n <= 13 || 28 <= n <= 32 || n == 0x85 || n == 0xA0 || n == 0x1680
    || 0x2000 <= n <= 0x200A || n == 0x2028 || n == 0x2029 || n == 0x202F || n == 0x205F || n == 0x3000
  }

  // `not value.strip()`: nothing but white space.
  predicate Blank(s: string)
  {
    forall i :: 0 <= i < |s| ==> IsSpace(s[i])
  }

  // ---- Lists without repetitions -------------------------------------------

  // `if value not in values: values.append(value)`
  function AppendUnique(values: seq<string>, value: string): seq<string>
  {
    if value in values then values else values + [value]
  }

  function Joined(values: seq<string>, more: seq<string>): seq<string>
    decreases |more|
  {
    if |more| == 0 then values else Joined(AppendUnique(values, more[0]), more[1..])
  }

  // Where a text first occurs; the length when it does not.
  function FirstIndex(texts: seq<string>, text: string): (i: nat)
    ensures i <= |texts| && (i < |texts| ==> texts[i] == text)
    ensures forall j | 0 <= j < i :: texts[j] != text
  {
    if |texts| == 0 || texts[0] == text then 0 else 1 + FirstIndex(texts[1..], text)
  }

  /** What appending every text of `more` once comes to: the old list, then the
      texts that were not in it, each once (the places of two differ), in the
      order they first occur. */
  predicate Unites(values: seq<string>, more: seq<string>, united: seq<string>)
  {
    && values <= united
    && (forall x | x in more :: x in united)
    && (forall k | |values| <= k < |united| :: united[k] in more && united[k] !in values)
    && (forall j, k | |values| <= j < k < |united| :: FirstIndex(more, united[j]) < FirstIndex(more, united[k]))
  }

  lemma FirstIndexBelow(head: string, rest: seq<string>, text: string)
    ensures FirstIndex([head] + rest, text) == if head == text then 0 else 1 + FirstIndex(rest, text)
  {
    assert ([head] + rest)[1..] == rest;
  }

  // The texts appended for the rest follow the head, where that was new.
  lemma UnitesBehind(values: seq<string>, head: string, rest: seq<string>, united: seq<string>, k: nat)
    requires Unites(AppendUnique(values, head), rest, united) && |values| <= k < |united|
    ensures united[k] in [head] + rest && united[k] !in values
    ensures FirstIndex([head] + rest, united[k]) ==
            if united[k] == head then 0 else 1 + FirstIndex(rest, united[k])
    ensures united[k] == head <==> head !in values && k == |values|
  {
    FirstIndexBelow(head, rest, united[k]);
    if head in values || k > |values| {
      assert united[k] in rest && united[k] !in AppendUnique(values, head);
    } else {
      assert united[k] == AppendUnique(values, head)[k];
    }
  }

  lemma UnitesStep(values: seq<string>, head: string, rest: seq<string>, united: seq<string>)
    requires Unites(AppendUnique(values, head), rest, united)
    ensures Unites(values, [head] + rest, united)
  {
    forall x | x in [head] + rest ensures x in united {
      assert head in AppendUnique(values, head);
    }
    forall k | |values| <= k < |united| ensures united[k] in [head] + rest && united[k] !in values {
      UnitesBehind(values, head, rest, united, k);
    }
    forall j, k | |values| <= j < k < |united|
      ensures FirstIndex([head] + rest, united[j]) < FirstIndex([head] + rest, united[k])
    {
      UnitesBehind(values, head, rest, united, j);
      UnitesBehind(values, head, rest, united, k);
    }
  }

  lemma {:induction false} JoinedUnites(values: seq<string>, more: seq<string>)
    ensures Unites(values, more, Joined(values, more))
    decreases |more|
  {
    if |more| > 0 {
      JoinedUnites(AppendUnique(values, more[0]), more[1..]);
      UnitesStep(values, more[0], more[1..], Joined(values, more));
      assert more == [more[0]] + more[1..];
    }
  }

  // A part one of whose characters is missing from the text cannot occur in it.
  lemma MissingCharNoOccurrence(part: string, text: string, n: nat)
    requires n < |part| && part[n] !in text
    ensures !Occurs(part, text)
  {
    forall i | 0 <= i <= |text| - |part|
      ensures !OccursAt(part, text, i)
    {
      assert text[i..i + |part|][n] == text[i + n];
    }
  }
}
