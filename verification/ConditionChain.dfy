/** How the evaluator combines the tests of a line: three flags updated token by token, against the
    left-to-right fold with short-circuiting that the operators stand for. */
module ConditionChain {

  /** `orOp` is the value of `okey` at which the next test is skipped. */
  datatype Chain = Chain(okey: bool, orOp: bool, invert: bool)

  const START := Chain(true, false, false)

  function OnNot(c: Chain): Chain { c.(invert := !c.invert) }

  function OnAnd(c: Chain): Chain { c.(orOp := false) }

  function OnOr(c: Chain): Chain { c.(orOp := true) }

  predicate Due(c: Chain) { c.okey != c.orOp }

  /** A test was made. */
  function Tested(c: Chain, value: bool): Chain {
    var okey := value != c.invert;
    Chain(okey, !okey, false)
  }

  /** A due test had no name of one word. */
  function Invalid(c: Chain): Chain { Chain(false, true, false) }

  function Skipped(c: Chain): Chain { Chain(c.okey, !c.okey, false) }

  datatype Mark = Not | And | Or | Test(value: bool)

  function After(c: Chain, mark: Mark): Chain {
    match mark
    case Not => OnNot(c)
    case And => OnAnd(c)
    case Or => OnOr(c)
    case Test(value) => if Due(c) then Tested(c, value) else Skipped(c)
  }

  function FlagsAfter(c: Chain, marks: seq<Mark>): Chain
    decreases |marks|
  {
    if marks == [] then c else FlagsAfter(After(c, marks[0]), marks[1..])
  }

  function Made(c: Chain, marks: seq<Mark>): seq<bool>
    decreases |marks|
  {
    if marks == [] then []
    else (if marks[0].Test? then [Due(c)] else []) + Made(After(c, marks[0]), marks[1..])
  }

  lemma WalkStep(c: Chain, marks: seq<Mark>, i: nat)
    requires i < |marks|
    ensures FlagsAfter(c, marks[i..]) == FlagsAfter(After(c, marks[i]), marks[i + 1..])
    ensures Made(c, marks[i..])
         == (if marks[i].Test? then [Due(c)] else []) + Made(After(c, marks[i]), marks[i + 1..])
  {
    assert marks[i..][0] == marks[i] && marks[i..][1..] == marks[i + 1..];
  }

  /** The chain after `marks`, and which of the tests, by their position among them, were made. */
  method Walk(marks: seq<Mark>) returns (c: Chain, made: seq<bool>)
    ensures c == FlagsAfter(START, marks) && made == Made(START, marks)
  {
    c, made := START, [];
    var i := 0;
    assert marks[0..] == marks;
    while i < |marks|
      invariant 0 <= i <= |marks|
      invariant FlagsAfter(c, marks[i..]) == FlagsAfter(START, marks)
      invariant made + Made(c, marks[i..]) == Made(START, marks)
    {
      WalkStep(c, marks, i);
      hide FlagsAfter, Made;
      match marks[i] {
        case Not => c := OnNot(c);
        case And => c := OnAnd(c);
        case Or => c := OnOr(c);
        case Test(value) =>
          made := made + [Due(c)];
          c := if Due(c) then Tested(c, value) else Skipped(c);
      }
      i := i + 1;
    }
  }

  /** A test with the operator in front of it, if any, and its negations. */
  datatype Link = Link(op: Joint, nots: nat, value: bool)

  datatype Joint = Fresh | Both | Either

  function Negations(n: nat): seq<Mark> { if n == 0 then [] else [Not] + Negations(n - 1) }

  function LinkMarks(link: Link): seq<Mark> {
    (match link.op case Fresh => [] case Both => [And] case Either => [Or])
    + Negations(link.nots) + [Test(link.value)]
  }

  function Marks(links: seq<Link>): seq<Mark> {
    if links == [] then [] else LinkMarks(links[0]) + Marks(links[1..])
  }

  function Outcome(link: Link): bool { link.value != (link.nots % 2 == 1) }

  function Joined(op: Joint, acc: bool, value: bool): bool {
    match op
    case Fresh => value
    case Both => acc && value
    case Either => acc || value
  }

  /** Whether the next test can still decide. */
  predicate Decides(op: Joint, acc: bool) {
    match op
    case Fresh => true
    case Both => acc
    case Either => !acc
  }

  /** The operators, of equal precedence, applied from left to right. */
  function Fold(acc: bool, links: seq<Link>): bool
    decreases |links|
  {
    if links == [] then acc else Fold(Joined(links[0].op, acc, Outcome(links[0])), links[1..])
  }

  /** The tests that can still decide the fold. */
  function Needed(acc: bool, links: seq<Link>): seq<bool>
    decreases |links|
  {
    if links == [] then []
    else [Decides(links[0].op, acc)] + Needed(Joined(links[0].op, acc, Outcome(links[0])), links[1..])
  }

  lemma {:induction false} FlagsAppend(c: Chain, xs: seq<Mark>, ys: seq<Mark>)
    ensures FlagsAfter(c, xs + ys) == FlagsAfter(FlagsAfter(c, xs), ys)
    ensures Made(c, xs + ys) == Made(c, xs) + Made(FlagsAfter(c, xs), ys)
    decreases |xs|
  {
    if xs == [] {
      assert xs + ys == ys;
    } else {
      FlagsAppend(After(c, xs[0]), xs[1..], ys);
      assert (xs + ys)[1..] == xs[1..] + ys;
    }
  }

  lemma {:induction false} NegationsFlags(c: Chain, n: nat)
    ensures FlagsAfter(c, Negations(n)) == c.(invert := c.invert != (n % 2 == 1)) && Made(c, Negations(n)) == []
    decreases n
  {
    if n > 0 {
      NegationsFlags(OnNot(c), n - 1);
    }
  }

  /** Between two tests the flags say: any next test is due unless an operator says otherwise. */
  predicate Rested(c: Chain) { c.orOp == !c.okey && !c.invert }

  lemma LinkFlags(c: Chain, link: Link)
    requires Rested(c)
    ensures Rested(FlagsAfter(c, LinkMarks(link)))
    ensures FlagsAfter(c, LinkMarks(link)).okey == Fold(c.okey, [link])
    ensures Made(c, LinkMarks(link)) == Needed(c.okey, [link])
  {
    var op := match link.op case Fresh => [] case Both => [And] case Either => [Or];
    var test := [Test(link.value)];
    FlagsAppend(c, op + Negations(link.nots), test);
    FlagsAppend(c, op, Negations(link.nots));
    NegationsFlags(FlagsAfter(c, op), link.nots);
    assert test[1..] == [];
    assert Fold(c.okey, [link]) == Fold(Fold(c.okey, [link]), []) by { assert [link][1..] == []; }
  }

  lemma {:induction false} ChainFrom(c: Chain, links: seq<Link>)
    requires Rested(c)
    ensures FlagsAfter(c, Marks(links)).okey == Fold(c.okey, links)
    ensures Made(c, Marks(links)) == Needed(c.okey, links)
    decreases |links|
  {
    if links != [] {
      LinkFlags(c, links[0]);
      FlagsAppend(c, LinkMarks(links[0]), Marks(links[1..]));
      ChainFrom(FlagsAfter(c, LinkMarks(links[0])), links[1..]);
      assert links[..1] == [links[0]] && [links[0]][1..] == [];
    }
  }

  /** The flags compute the fold, and make exactly the tests that short-circuit evaluation makes. */
  lemma ChainIsFold(links: seq<Link>)
    ensures FlagsAfter(START, Marks(links)).okey == Fold(true, links)
    ensures Made(START, Marks(links)) == Needed(true, links)
  {
    ChainFrom(START, links);
  }
}
