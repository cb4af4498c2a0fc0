/** The terminal typing effect of the hero section: a command is typed one
    character at a time, held, deleted one character at a time, and the next
    command (cyclically) is started. */
module Typing {

  /** The commands the terminal cycles through, in order. */
  const Commands: seq<string> := [
    "npx create-awesome-portfolio",
    "npm run build:dreams",
    "git commit -m \"Making magic\"",
    "docker run innovation",
    "kubectl deploy success",
    "python train_ai_model.py",
    "cargo build --release",
    "go run create_impact.go"
  ]

  /** `s.substring(0, end)`: the end index is clamped into `[0, |s|]`. */
  function PrefixUpTo(s: string, end: int): (r: string)
    ensures |r| == if end < 0 then 0 else if end > |s| then |s| else end
    ensures r == s[..|r|]
  {
    if end < 0 then "" else if end > |s| then s else s[..end]
  }

  /** The three closure variables of the typing loop. */
  datatype Typist = Typist(commandIndex: int, charIndex: int, isDeleting: bool)

  /** What one step produces: the new variables, the text written to the
      terminal and the delay before the next step. */
  datatype Tick = Tick(next: Typist, text: string, delay: int)

  const Start := Typist(0, 0, false)

  predicate ValidIndex(commands: seq<string>, t: Typist) {
    0 <= t.commandIndex < |commands|
  }

  predicate AllNonEmpty(commands: seq<string>) {
    forall i :: 0 <= i < |commands| ==> |commands[i]| > 0
  }

  /** The invariant of reachable states: while typing the cursor is before
      the end of the command, while deleting it is past the start. */
  predicate Inv(commands: seq<string>, t: Typist) {
    && ValidIndex(commands, t)
    && 0 <= t.charIndex <= |commands[t.commandIndex]|
    && (if t.isDeleting then 1 <= t.charIndex else t.charIndex < |commands[t.commandIndex]|)
  }

  /** One call of the typing step. */
  function Step(commands: seq<string>, t: Typist): (r: Tick)
    requires ValidIndex(commands, t)
    ensures ValidIndex(commands, r.next)
  {
    var cmd := commands[t.commandIndex];
    var c := if t.isDeleting then t.charIndex - 1 else t.charIndex + 1;
    var text := PrefixUpTo(cmd, c);
    if !t.isDeleting && c == |cmd| then
      Tick(Typist(t.commandIndex, c, true), text, 2000)
    else if t.isDeleting && c == 0 then
      Tick(Typist((t.commandIndex + 1) % |commands|, 0, false), text, 500)
    else
      Tick(Typist(t.commandIndex, c, t.isDeleting), text, if t.isDeleting then 50 else 100)
  }

  /** The state after `n` steps. */
  function Run(commands: seq<string>, t: Typist, n: nat): (r: Typist)
    requires ValidIndex(commands, t)
    ensures ValidIndex(commands, r)
    decreases n
  {
    if n == 0 then t else Run(commands, Step(commands, t).next, n - 1)
  }

  /** Total number of steps needed to type and delete commands `i..`. */
  function Period(commands: seq<string>, i: nat): nat
    requires i <= |commands|
    decreases |commands| - i
  {
    if i == |commands| then 0 else 2 * |commands[i]| + Period(commands, i + 1)
  }

  /** The invariant is kept, and the terminal then shows exactly the first
      `charIndex` characters of the current command. */
  lemma StepKeepsInv(commands: seq<string>, t: Typist)
    requires AllNonEmpty(commands) && Inv(commands, t)
    ensures Inv(commands, Step(commands, t).next)
    ensures var n := Step(commands, t).next;
            Step(commands, t).text == commands[n.commandIndex][..n.charIndex]
  {
  }

  /** The mode flips to deleting exactly when the command is complete, and
      back to typing exactly when the text is empty again, and only then does
      the command index advance (cyclically). */
  lemma StepModes(commands: seq<string>, t: Typist)
    requires ValidIndex(commands, t)
    ensures var r := Step(commands, t).next;
            var len := |commands[t.commandIndex]|;
            && (!t.isDeleting ==> (r.isDeleting <==> r.charIndex == len))
            && (t.isDeleting ==> (!r.isDeleting <==> t.charIndex == 1))
            && r.commandIndex == (if t.isDeleting && !r.isDeleting then (t.commandIndex + 1) % |commands| else t.commandIndex)
            && r.charIndex == (if t.isDeleting then t.charIndex - 1 else t.charIndex + 1)
  {
  }

  /** The delay: a pause after a command is complete, a shorter one after it
      is erased, and otherwise typing is slower than deleting. */
  lemma StepDelay(commands: seq<string>, t: Typist)
    requires ValidIndex(commands, t)
    ensures var r := Step(commands, t);
            r.delay == (if !t.isDeleting && r.next.isDeleting then 2000
                        else if t.isDeleting && !r.next.isDeleting then 500
                        else if t.isDeleting then 50
                        else 100)
  {
  }

  lemma {:induction false} RunKeepsInv(commands: seq<string>, t: Typist, n: nat)
    requires AllNonEmpty(commands) && Inv(commands, t)
    ensures Inv(commands, Run(commands, t, n))
    decreases n
  {
    if n > 0 {
      StepKeepsInv(commands, t);
      RunKeepsInv(commands, Step(commands, t).next, n - 1);
    }
  }

  lemma {:induction false} RunAdd(commands: seq<string>, t: Typist, a: nat, b: nat)
    requires ValidIndex(commands, t)
    ensures Run(commands, t, a + b) == Run(commands, Run(commands, t, a), b)
    decreases a
  {
    if a > 0 {
      RunAdd(commands, Step(commands, t).next, a - 1, b);
    }
  }

  /** Typing: from position `c`, `k` more steps reach `c + k`, and the mode
      flips on reaching the end. */
  lemma {:induction false} TypeOut(commands: seq<string>, i: int, c: int, k: nat)
    requires 0 <= i < |commands| && 0 <= c < |commands[i]| && c + k <= |commands[i]|
    ensures Run(commands, Typist(i, c, false), k) ==
            if c + k < |commands[i]| then Typist(i, c + k, false) else Typist(i, |commands[i]|, true)
    decreases k
  {
    if k > 0 {
      if c + 1 < |commands[i]| {
        TypeOut(commands, i, c + 1, k - 1);
      }
    }
  }

  /** Deleting: from position `c`, `k` more steps reach `c - k`; on reaching
      zero the next command starts. */
  lemma {:induction false} DeleteOut(commands: seq<string>, i: int, c: int, k: nat)
    requires 0 <= i < |commands| && 1 <= c && k <= c
    ensures Run(commands, Typist(i, c, true), k) ==
            if k < c then Typist(i, c - k, true) else Typist((i + 1) % |commands|, 0, false)
    decreases k
  {
    if k > 0 {
      if c - 1 > 0 {
        DeleteOut(commands, i, c - 1, k - 1);
      }
    }
  }

  /** One command takes exactly twice its length in steps, and ends at the
      start of the next command. */
  lemma CommandCycle(commands: seq<string>, i: int)
    requires 0 <= i < |commands| && |commands[i]| > 0
    ensures Run(commands, Typist(i, 0, false), 2 * |commands[i]|) == Typist((i + 1) % |commands|, 0, false)
  {
    var len := |commands[i]|;
    RunAdd(commands, Typist(i, 0, false), len, len);
    TypeOut(commands, i, 0, len);
    DeleteOut(commands, i, len, len);
  }

  /** After typing and deleting commands `i..` the terminal is back at its
      initial state. */
  lemma {:induction false} FullCycle(commands: seq<string>, i: int)
    requires AllNonEmpty(commands) && 0 <= i < |commands|
    ensures Run(commands, Typist(i, 0, false), Period(commands, i)) == Start
    decreases |commands| - i
  {
    var len := |commands[i]|;
    var rest := Period(commands, i + 1);
    var first := Typist(i, 0, false);
    var next := Typist((i + 1) % |commands|, 0, false);
    assert Period(commands, i) == 2 * len + rest;
    CommandCycle(commands, i);
    RunAdd(commands, first, 2 * len, rest);
    assert Run(commands, first, Period(commands, i)) == Run(commands, next, rest);
    if i + 1 < |commands| {
      NextIndex(i, |commands|);
      FullCycle(commands, i + 1);
    } else {
      NextIndex(i, |commands|);
      assert rest == 0;
    }
  }

  lemma NextIndex(i: int, n: int)
    requires 0 <= i < n
    ensures (i + 1) % n == if i + 1 < n then i + 1 else 0
  {
  }

  /** The typing effect is periodic, and its period is the sum of twice the
      lengths of the commands. */
  lemma Periodic(commands: seq<string>)
    requires AllNonEmpty(commands) && |commands| > 0
    ensures Run(commands, Start, Period(commands, 0)) == Start
  {
    FullCycle(commands, 0);
  }

  lemma CommandsNonEmpty()
    ensures AllNonEmpty(Commands) && |Commands| == 8
  {
  }

  /** The terminal element together with the closure of the typing loop. */
  class Terminal {
    const commands: seq<string>
    var commandIndex: int
    var charIndex: int
    var isDeleting: bool
    var typingSpeed: int
    /** The terminal element's text content. */
    var text: string

    ghost predicate Valid()
      reads this
    {
      AllNonEmpty(commands) && Inv(commands, State())
    }

    function State(): Typist
      reads this
    {
      Typist(commandIndex, charIndex, isDeleting)
    }

    /** `initialText` is whatever the page shows before the first step. */
    constructor (initialText: string)
      ensures Valid()
      ensures commands == Commands && State() == Start
      ensures typingSpeed == 100 && text == initialText
    {
      commands := Commands;
      commandIndex, charIndex, isDeleting := 0, 0, false;
      typingSpeed := 100;
      text := initialText;
      CommandsNonEmpty();
    }

    /** One step; `typingSpeed` is the delay until the next one. */
    method Type()
      requires Valid()
      modifies this
      ensures Valid()
      ensures State() == Step(commands, old(State())).next
      ensures text == Step(commands, old(State())).text
      ensures typingSpeed == Step(commands, old(State())).delay
      ensures text == commands[commandIndex][..charIndex]
    {
      StepKeepsInv(commands, State());
      var currentCommand := commands[commandIndex];
      if isDeleting {
        text := PrefixUpTo(currentCommand, charIndex - 1);
        charIndex := charIndex - 1;
        typingSpeed := 50;
      } else {
        text := PrefixUpTo(currentCommand, charIndex + 1);
        charIndex := charIndex + 1;
        typingSpeed := 100;
      }
      if !isDeleting && charIndex == |currentCommand| {
        typingSpeed := 2000;
        isDeleting := true;
      } else if isDeleting && charIndex == 0 {
        isDeleting := false;
        commandIndex := (commandIndex + 1) % |commands|;
        typingSpeed := 500;
      }
    }
  }
}
