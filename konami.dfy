/** The Konami-code easter egg: a document-wide key listener that advances
    through a fixed ten-key sequence and fires when it is complete. */
module Konami {

  const Code: seq<string> := [
    "ArrowUp", "ArrowUp", "ArrowDown", "ArrowDown",
    "ArrowLeft", "ArrowRight", "ArrowLeft", "ArrowRight",
    "b", "a"
  ]

  predicate ValidIndex(index: int) {
    0 <= index < |Code|
  }

  /** The new index after a key, and whether the easter egg fired. */
  datatype Outcome = Outcome(index: int, fired: bool)

  /** One `keydown` event. */
  function KeyStep(index: int, key: string): (r: Outcome)
    requires ValidIndex(index)
    ensures ValidIndex(r.index)
  {
    if key == Code[index] then
      if index + 1 == |Code| then Outcome(0, true) else Outcome(index + 1, false)
    else
      Outcome(0, false)
  }

  /** The outcome of the last of `keys`, starting from `index`. */
  function Feed(index: int, keys: seq<string>): (r: Outcome)
    requires ValidIndex(index)
    ensures ValidIndex(r.index)
    decreases |keys|
  {
    if keys == [] then Outcome(index, false)
    else KeyStep(Feed(index, keys[..|keys| - 1]).index, keys[|keys| - 1])
  }

  /** A matching key advances the index, any other key resets it to zero
      (even the first key of the code); the egg fires exactly on the tenth
      matching key, and the index is then zero again. */
  lemma KeyStepCases(index: int, key: string)
    requires ValidIndex(index)
    ensures var r := KeyStep(index, key);
            && (r.fired <==> index == |Code| - 1 && key == Code[index])
            && (key != Code[index] ==> r.index == 0)
            && (key == Code[index] && !r.fired ==> r.index == index + 1)
            && (r.fired ==> r.index == 0)
  {
  }

  lemma FeedSnoc(index: int, keys: seq<string>, key: string)
    requires ValidIndex(index)
    ensures Feed(index, keys + [key]) == KeyStep(Feed(index, keys).index, key)
  {
    assert (keys + [key])[..|keys|] == keys;
  }

  lemma {:induction false} FeedAppend(index: int, a: seq<string>, b: seq<string>)
    requires ValidIndex(index)
    ensures b != [] ==> Feed(index, a + b) == Feed(Feed(index, a).index, b)
    ensures b == [] ==> Feed(index, a + b).index == Feed(index, a).index
    decreases |b|
  {
    if b == [] {
      assert a + b == a;
    } else {
      var b' := b[..|b| - 1];
      var k := b[|b| - 1];
      assert a + b == (a + b') + [k];
      assert b == b' + [k];
      FeedSnoc(index, a + b', k);
      FeedSnoc(Feed(index, a).index, b', k);
      FeedAppend(index, a, b');
    }
  }

  /** Index `i` after `keys` means: the last `i` keys are the first `i` keys
      of the code, and before them the index was zero. */
  ghost predicate MatchedSuffix(keys: seq<string>, i: int) {
    && 0 <= i <= |keys| && i <= |Code|
    && keys[|keys| - i..] == Code[..i]
    && Feed(0, keys[..|keys| - i]).index == 0
  }

  lemma MatchedNone(keys: seq<string>)
    requires Feed(0, keys).index == 0
    ensures MatchedSuffix(keys, 0)
  {
    assert keys[..|keys|] == keys;
    assert keys[|keys|..] == [] == Code[..0];
  }

  lemma MatchedExtend(ks: seq<string>, k: string, j: int)
    requires ValidIndex(j) && MatchedSuffix(ks, j) && k == Code[j]
    ensures MatchedSuffix(ks + [k], j + 1)
  {
    var keys := ks + [k];
    assert keys[|keys| - (j + 1)..] == ks[|ks| - j..] + [k];
    assert Code[..j + 1] == Code[..j] + [Code[j]];
    assert keys[..|keys| - (j + 1)] == ks[..|ks| - j];
  }

  /** Soundness: whatever the keys, the index counts a run of code keys that
      began at index zero, and a firing key completes the whole code. */
  lemma {:induction false} FeedSound(keys: seq<string>)
    ensures var r := Feed(0, keys);
            && MatchedSuffix(keys, r.index)
            && (r.fired ==> MatchedSuffix(keys, |Code|))
    decreases |keys|
  {
    if keys == [] {
      MatchedNone(keys);
    } else {
      var ks := keys[..|keys| - 1];
      var k := keys[|keys| - 1];
      assert keys == ks + [k];
      FeedSound(ks);
      SoundStep(ks, k);
    }
  }

  /** One key keeps the meaning of the index. */
  lemma SoundStep(ks: seq<string>, k: string)
    requires MatchedSuffix(ks, Feed(0, ks).index)
    ensures var r := Feed(0, ks + [k]);
            && MatchedSuffix(ks + [k], r.index)
            && (r.fired ==> MatchedSuffix(ks + [k], |Code|))
  {
    var j := Feed(0, ks).index;
    FeedSnoc(0, ks, k);
    KeyStepCases(j, k);
    if k == Code[j] {
      MatchedExtend(ks, k, j);
    }
    if Feed(0, ks + [k]).index == 0 {
      MatchedNone(ks + [k]);
    }
  }

  lemma {:induction false} CodePrefix(k: nat)
    requires 1 <= k <= |Code|
    ensures Feed(0, Code[..k]) == if k < |Code| then Outcome(k, false) else Outcome(0, true)
    decreases k
  {
    if k > 1 {
      CodePrefix(k - 1);
    }
    assert Code[..k] == Code[..k - 1] + [Code[k - 1]];
    FeedSnoc(0, Code[..k - 1], Code[k - 1]);
    assert Code[..0] == [];
  }

  /** The easter egg fires on a key exactly when the last ten keys are the
      code and the index was zero before the first of them. */
  lemma FiresIff(keys: seq<string>)
    ensures Feed(0, keys).fired <==>
            |keys| >= |Code| && keys[|keys| - |Code|..] == Code
            && Feed(0, keys[..|keys| - |Code|]).index == 0
  {
    if Feed(0, keys).fired {
      FiredAfterCode(keys);
    }
    if |keys| >= |Code| && keys[|keys| - |Code|..] == Code && Feed(0, keys[..|keys| - |Code|]).index == 0 {
      var m := |keys| - |Code|;
      assert keys == keys[..m] + keys[m..];
      CompletingCodeFires(keys[..m], keys);
    }
  }

  lemma FiredAfterCode(keys: seq<string>)
    requires Feed(0, keys).fired
    ensures |keys| >= |Code| && keys[|keys| - |Code|..] == Code
    ensures Feed(0, keys[..|keys| - |Code|]).index == 0
  {
    FeedSound(keys);
    assert MatchedSuffix(keys, |Code|);
    assert Code[..|Code|] == Code;
  }

  lemma CompletingCodeFires(p: seq<string>, keys: seq<string>)
    requires keys == p + Code && Feed(0, p).index == 0
    ensures Feed(0, keys).fired
  {
    FeedAppend(0, p, Code);
    CodePrefix(|Code|);
    assert Code[..|Code|] == Code;
  }

  /** Completeness: from a reset listener, typing the code fires on its last
      key and on no earlier one. */
  lemma TypingCodeFires()
    ensures Feed(0, Code) == Outcome(0, true)
    ensures forall k :: 1 <= k < |Code| ==> !Feed(0, Code[..k]).fired
  {
    CodePrefix(|Code|);
    assert Code[..|Code|] == Code;
    forall k | 1 <= k < |Code| ensures !Feed(0, Code[..k]).fired {
      CodePrefix(k);
    }
  }

  /** The matcher does not restart a match on a mismatching key: one extra
      "ArrowUp" before the code leaves the index at zero without firing. */
  lemma ExtraArrowUpMisses()
    ensures Feed(0, ["ArrowUp"] + Code) == Outcome(0, false)
  {
    var ups := ["ArrowUp", "ArrowUp", "ArrowUp"];
    var rest := Code[2..];
    assert ["ArrowUp"] + Code == ups + rest;
    FeedSnoc(0, [], "ArrowUp");
    FeedSnoc(0, ["ArrowUp"], "ArrowUp");
    FeedSnoc(0, ["ArrowUp", "ArrowUp"], "ArrowUp");
    assert Feed(0, ups).index == 0;
    AwayFromStart(rest);
    FeedAppend(0, ups, rest);
  }

  /** Keys other than the first key of the code keep a reset listener reset. */
  lemma {:induction false} AwayFromStart(keys: seq<string>)
    requires forall i :: 0 <= i < |keys| ==> keys[i] != Code[0]
    ensures Feed(0, keys) == Outcome(0, false)
    decreases |keys|
  {
    if keys != [] {
      AwayFromStart(keys[..|keys| - 1]);
    }
  }

  /** The document's `keydown` listener and the global index it updates. */
  class KonamiListener {
    var konamiIndex: int

    ghost predicate Valid()
      reads this
    {
      ValidIndex(konamiIndex)
    }

    constructor ()
      ensures Valid() && konamiIndex == 0
    {
      konamiIndex := 0;
    }

    /** Returns whether the easter egg is activated by `key`. */
    method KeyDown(key: string) returns (fired: bool)
      requires Valid()
      modifies this
      ensures Valid()
      ensures Outcome(konamiIndex, fired) == KeyStep(old(konamiIndex), key)
    {
      fired := false;
      if key == Code[konamiIndex] {
        konamiIndex := konamiIndex + 1;
        if konamiIndex == |Code| {
          fired := true;
          konamiIndex := 0;
        }
      } else {
        konamiIndex := 0;
      }
    }
  }
}
