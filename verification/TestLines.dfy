/** What a line of tests consists of. */
module TestLines {
  import opened ProTokens
  import opened ConditionChain

  /** A test with what stands in front of it: line marks, an operator and negations. */
  datatype TestLink = TestLink(lines: seq<Unit>, op: Joint, nots: nat, test: Item)

  predicate IsTest(item: Item) { item.Cond? || item.Call? }

  predicate IsChain(links: seq<TestLink>) { forall i | 0 <= i < |links| :: IsTest(links[i].test) }

  function LineItems(lines: seq<Unit>): seq<Item> {
    if lines == [] then [] else [Line(lines[0])] + LineItems(lines[1..])
  }

  function OpItems(op: Joint): seq<Item> {
    match op
    case Fresh => []
    case Both => [Op(AND)]
    case Either => [Op(OR)]
  }

  function NotItems(n: nat): seq<Item> { if n == 0 then [] else [Op(NOT)] + NotItems(n - 1) }

  function LinkItems(link: TestLink): seq<Item> {
    LineItems(link.lines) + (OpItems(link.op) + (NotItems(link.nots) + [link.test]))
  }

  function ChainItems(links: seq<TestLink>): seq<Item> {
    if links == [] then [] else LinkItems(links[0]) + ChainItems(links[1..])
  }
}
