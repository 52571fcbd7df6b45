/** The writer of XML files: a stack of open tags, whether the last one still takes attributes, and the
    indentation. What it writes is kept as a list of marks rather than as characters. */
module XmlOutputModel {

  datatype Mark =
    | Open(tag: string)      // <tag
    | OpenEnd                // >
    | SelfClose              // />
    | EndTag(tag: string)    // </tag>
    | Attribute(name: string, value: string)
    | Text(text: string)     // converted text, comments, and raw text

  datatype State = Bare | InTag | InAttributes

  datatype Xml = Xml(tags: seq<string>, level: nat, state: State, newLine: bool, marks: seq<Mark>)

  const EMPTY := Xml([], 0, Bare, true, [])

  datatype Item =
    | Nothing
    | Raw(text: string)
    | Declaration(version: string, encoding: string)
    | Tag(name: string)
    | TagValue(name: string, value: string)
    | ValueTag(value: string)
    | Import(name: string, value: string)
    | CloseTag
    | CloseTo(name: string)
    | CloseAll
    | AttributeOf(name: string, value: string)
    | AttributeTag(name: string, value: string)
    | Data(text: string)
    | Comment(text: string)
    | CData(text: string)

  predicate Standing(x: Xml) { x.level == |x.tags| && (x.state.Bare? <==> x.tags == []) }

  function Write(x: Xml, m: Mark): Xml { x.(marks := x.marks + [m]) }

  function AfterIncrease(x: Xml): Xml { x.(level := x.level + 1) }

  function AfterDecrease(x: Xml): Xml {
    var level := if x.level > 0 then x.level - 1 else 0;
    x.(level := level, state := if level == 0 then Bare else x.state)
  }

  function AfterCloseOpen(x: Xml): (r: Xml)
    ensures Standing(x) ==> Standing(r)
  {
    if x.state.InAttributes? then Write(x, OpenEnd).(state := InTag) else x
  }

  function AfterOpen(x: Xml, tag: string): (r: Xml)
    ensures Standing(x) ==> Standing(r)
  {
    var w := Write(AfterCloseOpen(x), Open(tag));
    AfterIncrease(w.(state := InAttributes, tags := w.tags + [tag]))
  }

  function AfterClose(x: Xml): (r: Xml)
    requires x.state.Bare? || x.tags != []
    ensures Standing(x) ==> Standing(r)
  {
    match x.state
    case Bare => x
    case InTag =>
      var d := AfterDecrease(x);
      Write(d, EndTag(x.tags[|x.tags| - 1])).(tags := x.tags[..|x.tags| - 1])
    case InAttributes =>
      AfterDecrease(Write(x, SelfClose).(tags := x.tags[..|x.tags| - 1], state := InTag))
  }

  /** Close tags up to and including the first one with this name from the top; `left` are left to look at. */
  function AfterCloseUpTo(x: Xml, tag: string, left: nat): (r: Xml)
    requires Standing(x) && left == |x.tags|
    ensures Standing(r)
    decreases left
  {
    if left == 0 then x
    else if x.tags[|x.tags| - 1] == tag then AfterClose(x)
    else AfterCloseUpTo(AfterClose(x), tag, left - 1)
  }

  /** Without such a tag only a message is written, which names the innermost open tag. */
  function AfterCloseTo(x: Xml, tag: string): (r: Xml)
    requires Standing(x) && (tag != "" ==> x.tags != [])
    ensures Standing(r)
  {
    if tag !in x.tags && tag != "" then x else AfterCloseUpTo(x, tag, |x.tags|)
  }

  function AfterRaw(x: Xml, text: string): (r: Xml)
    ensures Standing(x) ==> Standing(r)
  {
    Write(AfterCloseOpen(x), Text(text))
  }

  /** Closing to a tag asks for the innermost open tag, which must be there. */
  predicate Defined(x: Xml, item: Item) { item.CloseTo? && item.name != "" ==> x.tags != [] }

  function Apply(x: Xml, item: Item): (r: Xml)
    requires Standing(x) && Defined(x, item)
    ensures Standing(r)
  {
    match item
    case Nothing => x
    case Raw(text) => AfterRaw(x, text)
    case Declaration(version, encoding) => if x.state.Bare? then AfterRaw(x, version + encoding) else x
    case Tag(name) => AfterOpen(x, name)
    case TagValue(name, value) => AfterRaw(AfterRaw(AfterRaw(x, name), value), name)
    case ValueTag(value) =>
      var t := AfterRaw(x, value).(newLine := false);
      AfterClose(t).(newLine := true)
    case Import(name, value) => AfterRaw(x, name + value)
    case CloseTag => AfterClose(x)
    case CloseTo(name) => AfterCloseTo(x, name)
    case CloseAll => if x.tags == [] then x else AfterCloseTo(x, "")
    case AttributeOf(name, value) => if x.state.InAttributes? then Write(x, Attribute(name, value)) else x
    case AttributeTag(name, value) => if x.state.InAttributes? then Write(x, Attribute(name, value)) else x
    case Data(text) => if text == "" then AfterCloseOpen(x) else AfterRaw(x, text)
    case Comment(text) => AfterRaw(x, text)
    case CData(text) => AfterRaw(x, text)
  }

  // ---- what the marks mean

  /** The document read so far: the open tags, and whether the last one is still being written. */
  datatype Doc = Broken | Doc(tags: seq<string>, attributes: bool)

  /** One mark more. An end tag must name the innermost open tag. */
  function Next(d: Doc, m: Mark): Doc {
    if d.Broken? then d
    else
      match m
      case Open(tag) => if d.attributes then Broken else Doc(d.tags + [tag], true)
      case OpenEnd => if d.attributes then Doc(d.tags, false) else Broken
      case SelfClose => if d.attributes && d.tags != [] then Doc(d.tags[..|d.tags| - 1], false) else Broken
      case EndTag(tag) =>
        if !d.attributes && d.tags != [] && d.tags[|d.tags| - 1] == tag then Doc(d.tags[..|d.tags| - 1], false)
        else Broken
      case Attribute(_, _) => if d.attributes then d else Broken
      case Text(_) => if d.attributes then Broken else d
  }

  function Read(marks: seq<Mark>): Doc {
    if marks == [] then Doc([], false) else Next(Read(marks[..|marks| - 1]), marks[|marks| - 1])
  }

  /** All that was opened has been closed, inside out. */
  predicate Balanced(marks: seq<Mark>) { Read(marks) == Doc([], false) }

  predicate Valid(x: Xml) {
    Standing(x) && Read(x.marks) == Doc(x.tags, x.state.InAttributes?) && "" !in x.tags
  }

  lemma WriteReads(x: Xml, m: Mark)
    ensures Read(Write(x, m).marks) == Next(Read(x.marks), m)
  {
    assert Write(x, m).marks[..|x.marks|] == x.marks;
  }

  lemma CloseOpenValid(x: Xml)
    requires Valid(x)
    ensures Valid(AfterCloseOpen(x)) && AfterCloseOpen(x).tags == x.tags && !AfterCloseOpen(x).state.InAttributes?
  {
    WriteReads(x, OpenEnd);
  }

  lemma RawValid(x: Xml, text: string)
    requires Valid(x)
    ensures Valid(AfterRaw(x, text)) && AfterRaw(x, text).tags == x.tags
  {
    CloseOpenValid(x);
    WriteReads(AfterCloseOpen(x), Text(text));
  }

  lemma OpenValid(x: Xml, tag: string)
    requires Valid(x) && tag != ""
    ensures Valid(AfterOpen(x, tag)) && AfterOpen(x, tag).tags == x.tags + [tag]
  {
    CloseOpenValid(x);
    WriteReads(AfterCloseOpen(x), Open(tag));
  }

  lemma CloseValid(x: Xml)
    requires Valid(x)
    ensures Valid(AfterClose(x))
    ensures AfterClose(x).tags == if x.tags == [] then [] else x.tags[..|x.tags| - 1]
  {
    if x.state.InAttributes? {
      WriteReads(x, SelfClose);
    } else if x.state.InTag? {
      WriteReads(AfterDecrease(x), EndTag(x.tags[|x.tags| - 1]));
    }
  }

  /** How many tags stay open when everything up to the topmost `tag` is closed. */
  function Below(tags: seq<string>, tag: string): (n: nat)
    ensures n <= |tags|
    ensures tag in tags ==> n < |tags| && tags[n] == tag && tag !in tags[n + 1..]
    ensures tag !in tags ==> n == 0
  {
    if tags == [] then 0
    else if tags[|tags| - 1] == tag then |tags| - 1
    else
      var n := Below(tags[..|tags| - 1], tag);
      assert tag in tags ==> tags[n + 1..] == tags[..|tags| - 1][n + 1..] + [tags[|tags| - 1]];
      n
  }

  lemma {:induction false} CloseUpToValid(x: Xml, tag: string, left: nat)
    requires Valid(x) && left == |x.tags|
    ensures var r := AfterCloseUpTo(x, tag, left); Valid(r) && r.tags == x.tags[..Below(x.tags, tag)]
    decreases left
  {
    hide Read, AfterClose;
    if left > 0 {
      CloseValid(x);
      if x.tags[|x.tags| - 1] != tag {
        CloseUpToValid(AfterClose(x), tag, left - 1);
        assert x.tags[..left - 1][..Below(x.tags, tag)] == x.tags[..Below(x.tags, tag)];
      }
    }
  }

  /** Closing to a tag closes up to and including the topmost such tag; nothing if there is none. */
  lemma CloseToValid(x: Xml, tag: string)
    requires Valid(x) && tag != "" && x.tags != []
    ensures Valid(AfterCloseTo(x, tag))
    ensures AfterCloseTo(x, tag).tags == if tag in x.tags then x.tags[..Below(x.tags, tag)] else x.tags
  {
    CloseUpToValid(x, tag, |x.tags|);
  }

  /** Closing all leaves a balanced document. */
  lemma CloseAllBalances(x: Xml)
    requires Valid(x)
    ensures Valid(Apply(x, CloseAll)) && Apply(x, CloseAll).tags == [] && Balanced(Apply(x, CloseAll).marks)
  {
    CloseUpToValid(x, "", |x.tags|);
  }

  /** The names of opened tags, and of those closed to, are not empty. */
  predicate Named(item: Item) {
    match item
    case Tag(name) => name != ""
    case CloseTo(name) => name != ""
    case _ => true
  }

  lemma ApplyValid(x: Xml, item: Item)
    requires Valid(x) && Named(item) && Defined(x, item)
    ensures Valid(Apply(x, item))
  {
    match item
    case Nothing =>
    case Raw(text) => RawValid(x, text);
    case Declaration(version, encoding) => RawValid(x, version + encoding);
    case Tag(name) => OpenValid(x, name);
    case TagValue(name, value) =>
      RawValid(x, name);
      RawValid(AfterRaw(x, name), value);
      RawValid(AfterRaw(AfterRaw(x, name), value), name);
    case ValueTag(value) =>
      RawValid(x, value);
      CloseValid(AfterRaw(x, value).(newLine := false));
    case Import(name, value) => RawValid(x, name + value);
    case CloseTag => CloseValid(x);
    case CloseTo(name) => CloseToValid(x, name);
    case CloseAll => CloseAllBalances(x);
    case AttributeOf(name, value) => WriteReads(x, Attribute(name, value));
    case AttributeTag(name, value) => WriteReads(x, Attribute(name, value));
    case Data(text) => CloseOpenValid(x); RawValid(x, text);
    case Comment(text) => RawValid(x, text);
    case CData(text) => RawValid(x, text);
  }

  datatype Outcome = Undefined | Done(x: Xml)

  function Run(items: seq<Item>): (r: Outcome)
    ensures r.Done? ==> Standing(r.x)
  {
    if items == [] then Done(EMPTY)
    else
      var item := items[|items| - 1];
      match Run(items[..|items| - 1])
      case Undefined => Undefined
      case Done(x) => if Defined(x, item) then Done(Apply(x, item)) else Undefined
  }

  /** Whenever a tag is closed to, some tag is open. */
  predicate ClosesOpen(items: seq<Item>) {
    forall i | 0 <= i < |items| && items[i].CloseTo? :: Run(items[..i]).Done? && Run(items[..i]).x.tags != []
  }

  /** Closing to a tag before any tag was opened has no defined behaviour. */
  lemma CloseToFirst(name: string)
    requires name != ""
    ensures Run([CloseTo(name)]) == Undefined && !ClosesOpen([CloseTo(name)])
  {
    assert [CloseTo(name)][..0] == [];
    assert Run([]) == Done(EMPTY);
    assert [CloseTo(name)][0].CloseTo?;
  }

  lemma ClosesOpenSnoc(items: seq<Item>, item: Item)
    ensures ClosesOpen(items + [item]) <==>
      ClosesOpen(items) && (item.CloseTo? ==> Run(items).Done? && Run(items).x.tags != [])
  {
    hide Run;
    var all := items + [item];
    assert all[..|items|] == items;
    assert forall i | 0 <= i < |items| :: all[i] == items[i] && all[..i] == items[..i];
    assert all[|items|] == item;
  }

  /** A sequence of stream operations is defined exactly if a tag is open whenever one is closed to. Then the
      indentation level is the number of open tags, the writer is in its bare state exactly when none is open,
      each end tag names the innermost open tag, and the writer's end leaves a balanced document. */
  lemma {:induction false} RunValid(items: seq<Item>)
    requires forall i | 0 <= i < |items| :: Named(items[i])
    ensures Run(items).Done? <==> ClosesOpen(items)
    ensures Run(items).Done? ==> Valid(Run(items).x) && Balanced(Apply(Run(items).x, CloseAll).marks)
    decreases |items|
  {
    if items == [] {
      CloseAllBalances(EMPTY);
    } else {
      var before, item := items[..|items| - 1], items[|items| - 1];
      RunValid(before);
      ClosesOpenSnoc(before, item);
      assert before + [item] == items;
      if Run(items).Done? {
        ApplyValid(Run(before).x, item);
        CloseAllBalances(Run(items).x);
      }
    }
  }

  lemma CloseMeaning(x: Xml)
    requires x.state.Bare? || x.tags != []
    ensures Valid(x) ==>
      Valid(AfterClose(x)) && AfterClose(x).tags == if x.tags == [] then [] else x.tags[..|x.tags| - 1]
  {
    if Valid(x) {
      CloseValid(x);
    }
  }

  lemma CloseToMeaning(x: Xml, tag: string)
    requires Standing(x) && (tag != "" ==> x.tags != [])
    ensures Valid(x) && tag != "" ==>
      && Valid(AfterCloseTo(x, tag))
      && AfterCloseTo(x, tag).tags == if tag in x.tags then x.tags[..Below(x.tags, tag)] else x.tags
  {
    if Valid(x) && tag != "" {
      CloseToValid(x, tag);
    }
  }

  lemma ApplyMeaning(x: Xml, item: Item)
    requires Standing(x) && Defined(x, item)
    ensures Valid(x) && Named(item) ==>
      Valid(Apply(x, item)) && (item.CloseAll? ==> Balanced(Apply(x, item).marks))
  {
    if Valid(x) && Named(item) {
      ApplyValid(x, item);
      CloseAllBalances(x);
    }
  }

  function Times(s: string, n: nat): (r: string)
    ensures |r| == n * |s|
  {
    if n == 0 then "" else Times(s, n - 1) + s
  }

  /** The writer. */
  class XmlOutput {
    var tagStack: seq<string>
    var indent: string
    var currentIndent: string
    var currentLevel: nat
    var currentState: State
    var newLine: bool
    var marks: seq<Mark>

    constructor ()
      ensures Model() == EMPTY && Indented()
    {
      tagStack, indent, currentIndent, currentLevel := [], "\t", "", 0;
      currentState, newLine, marks := Bare, true, [];
    }

    function Model(): Xml
      reads this
    {
      Xml(tagStack, currentLevel, currentState, newLine, marks)
    }

    /** The indentation is up to date. */
    predicate Indented()
      reads this
    {
      currentIndent == Times(indent, currentLevel)
    }

    method UpdateIndent()
      modifies this`currentIndent
      ensures Indented()
    {
      currentIndent := "";
      var i := 0;
      while i < currentLevel
        invariant 0 <= i <= currentLevel && currentIndent == Times(indent, i)
      {
        currentIndent := currentIndent + indent;
        i := i + 1;
      }
    }

    method IncreaseIndent()
      modifies this`currentLevel, this`currentIndent
      ensures Model() == AfterIncrease(old(Model())) && Indented()
    {
      currentLevel := currentLevel + 1;
      UpdateIndent();
    }

    method DecreaseIndent()
      modifies this`currentLevel, this`currentIndent, this`currentState
      ensures Model() == AfterDecrease(old(Model())) && Indented()
    {
      if currentLevel > 0 {
        currentLevel := currentLevel - 1;
      }
      UpdateIndent();
      if currentLevel == 0 {
        currentState := Bare;
      }
    }

    method CloseOpen()
      modifies this`marks, this`currentState
      ensures Model() == AfterCloseOpen(old(Model()))
    {
      match currentState {
        case Bare => return;
        case InTag => return;
        case InAttributes =>
      }
      marks := marks + [OpenEnd];
      currentState := InTag;
    }

    method NewTagOpen(tag: string)
      requires Indented()
      modifies this
      ensures Model() == AfterOpen(old(Model()), tag) && Indented() && indent == old(indent)
    {
      CloseOpen();
      marks := marks + [Open(tag)];
      currentState := InAttributes;
      tagStack := tagStack + [tag];
      IncreaseIndent();
    }

    method CloseTag()
      requires Indented() && (currentState.Bare? || tagStack != [])
      modifies this
      ensures Model() == AfterClose(old(Model())) && Indented() && indent == old(indent)
      ensures Valid(old(Model())) ==>
        Valid(Model()) && tagStack == if old(tagStack) == [] then [] else old(tagStack[..|tagStack| - 1])
    {
      CloseMeaning(Model());
      match currentState {
        case Bare =>
        case InTag =>
          DecreaseIndent();
          marks := marks + [EndTag(tagStack[|tagStack| - 1])];
          tagStack := tagStack[..|tagStack| - 1];
        case InAttributes =>
          marks := marks + [SelfClose];
          tagStack := tagStack[..|tagStack| - 1];
          currentState := InTag;
          DecreaseIndent();
      }
    }

    method CloseTo(tag: string)
      requires Indented() && Standing(Model()) && (tag != "" ==> tagStack != [])
      modifies this
      ensures Model() == AfterCloseTo(old(Model()), tag) && Indented() && indent == old(indent)
      ensures Valid(old(Model())) && tag != "" ==>
        && Valid(Model())
        && tagStack == if tag in old(tagStack) then old(tagStack[..Below(tagStack, tag)]) else old(tagStack)
    {
      CloseToMeaning(Model(), tag);
      var cont := true;
      if tag !in tagStack && tag != "" {
        return;
      }
      var left := |tagStack|;
      while left > 0 && cont
        invariant Indented() && Standing(Model()) && indent == old(indent)
        invariant cont ==> left == |tagStack|
        invariant (if cont then AfterCloseUpTo(Model(), tag, |tagStack|) else Model())
               == AfterCloseUpTo(old(Model()), tag, |old(tagStack)|)
        decreases left
      {
        left := left - 1;
        cont := tagStack[|tagStack| - 1] != tag;
        CloseTag();
      }
    }

    method AddRaw(text: string)
      modifies this`marks, this`currentState
      ensures Model() == AfterRaw(old(Model()), text)
    {
      CloseOpen();
      marks := marks + [Text(text)];
    }

    method Stream(item: Item)
      requires Indented() && Standing(Model()) && Defined(Model(), item)
      modifies this
      ensures Model() == Apply(old(Model()), item) && Indented() && indent == old(indent)
      ensures Valid(old(Model())) && Named(item) ==> Valid(Model()) && (item.CloseAll? ==> Balanced(marks))
    {
      ApplyMeaning(Model(), item);
      match item {
        case Nothing =>
        case Raw(text) => AddRaw(text);
        case Declaration(version, encoding) =>
          if currentState.Bare? {
            AddRaw(version + encoding);
          }
        case Tag(name) => NewTagOpen(name);
        case TagValue(name, value) =>
          AddRaw(name);
          AddRaw(value);
          AddRaw(name);
        case ValueTag(value) =>
          AddRaw(value);
          newLine := false;
          CloseTag();
          newLine := true;
        case Import(name, value) => AddRaw(name + value);
        case CloseTag => CloseTag();
        case CloseTo(name) => CloseTo(name);
        case CloseAll =>
          if tagStack != [] {
            CloseTo("");
          }
        case AttributeOf(name, value) => AddAttribute(name, value);
        case AttributeTag(name, value) => AddAttribute(name, value);
        case Data(text) =>
          if text == "" {
            CloseOpen();
          } else {
            AddRaw(text);
          }
        case Comment(text) => AddRaw(text);
        case CData(text) => AddRaw(text);
      }
    }

    method AddAttribute(name: string, value: string)
      modifies this`marks
      ensures Model() ==
        if old(currentState).InAttributes? then Write(old(Model()), Attribute(name, value)) else old(Model())
    {
      if currentState.InAttributes? {
        marks := marks + [Attribute(name, value)];
      }
    }
  }
}
