/**
 * The terminal typer of the skills section: item names written out one
 * character per tick, separated by `" | "`, with each item showing the part
 * of its name (and separator) that the typing position has reached.
 */
module Skills {
  import opened Options

  /** One skill: its name and the URL of its icon (empty when it has none). */
  datatype SkillItem = SkillItem(name: string, icon: string)

  /** What one item renders: whether its icon shows, and the visible text and separator. */
  datatype ItemView = ItemView(showIcon: bool, text: string, sep: string)

  /** `separator`, typed between neighbouring items. */
  const Separator: string := " | "

  function Min(a: int, b: int): int { if a <= b then a else b }
  function Max(a: int, b: int): int { if a >= b then a else b }

  /** The characters item `index` adds: its name, plus the separator unless it is the last item. */
  function Contribution(items: seq<SkillItem>, index: nat): nat
    requires index < |items|
  {
    |items[index].name| + (if index < |items| - 1 then |Separator| else 0)
  }

  /**
   * The `reduce` over `items` from `index` on, starting from `acc`: it never
   * loses what it has accumulated, and adds at least the current item.
   */
  function ReduceLength(items: seq<SkillItem>, index: nat, acc: nat): (r: nat)
    requires index <= |items|
    ensures r >= acc
    ensures index < |items| ==> r >= acc + Contribution(items, index)
    decreases |items| - index
  {
    if index == |items| then acc
    else ReduceLength(items, index + 1, acc + Contribution(items, index))
  }

  /**
   * `fullTextLength`: the length of the whole typed line, the sum of the name
   * lengths plus three characters for each of the n - 1 separators, and 0
   * when there are no items.
   */
  function FullTextLength(items: seq<SkillItem>): (n: nat)
    ensures n == if items == [] then 0 else NameLengths(items) + 3 * (|items| - 1)
  {
    if items == [] then ReduceLength(items, 0, 0)
    else
      ReduceLengthClosedForm(items, 0, 0);
      assert items[0..] == items;
      ReduceLength(items, 0, 0)
  }

  /** The sum of the item names' lengths. */
  function NameLengths(items: seq<SkillItem>): nat {
    if items == [] then 0 else |items[0].name| + NameLengths(items[1..])
  }

  /** The reduce from `index` adds the remaining names and one separator between each remaining pair. */
  lemma {:induction false} ReduceLengthClosedForm(items: seq<SkillItem>, index: nat, acc: nat)
    requires index < |items|
    ensures ReduceLength(items, index, acc)
         == acc + NameLengths(items[index..]) + |Separator| * (|items| - 1 - index)
    decreases |items| - index
  {
    assert items[index..] == [items[index]] + items[index + 1..];
    if index == |items| - 1 {
      assert items[index + 1..] == [];
    } else {
      ReduceLengthClosedForm(items, index + 1, acc + Contribution(items, index));
    }
  }

  /** One interval tick of `setCharIndex`: advance by one until the full length is reached. */
  function TypingStep(charIndex: int, fullTextLength: int): (next: int)
    ensures charIndex <= next <= charIndex + 1
    ensures next == charIndex + 1 <==> charIndex < fullTextLength
    ensures charIndex <= fullTextLength ==> next <= fullTextLength
  {
    if charIndex < fullTextLength then charIndex + 1 else charIndex
  }

  /** The typing position after `ticks` ticks from `charIndex`. */
  function TypingSteps(charIndex: int, fullTextLength: int, ticks: nat): int
    decreases ticks
  {
    if ticks == 0 then charIndex
    else TypingSteps(TypingStep(charIndex, fullTextLength), fullTextLength, ticks - 1)
  }

  /** Starting from 0, the typing position after `ticks` ticks is `min(ticks, fullTextLength)`. */
  lemma {:induction false} TypingFromZero(fullTextLength: nat, ticks: nat)
    ensures TypingSteps(0, fullTextLength, ticks) == Min(ticks, fullTextLength)
  {
    TypingFromPosition(0, fullTextLength, ticks);
  }

  /** From a position at or below the full length, ticks advance it by one each, stopping at the full length. */
  lemma {:induction false} TypingFromPosition(charIndex: int, fullTextLength: int, ticks: nat)
    requires charIndex <= fullTextLength
    ensures TypingSteps(charIndex, fullTextLength, ticks) == Min(charIndex + ticks, fullTextLength)
    decreases ticks
  {
    if ticks > 0 {
      TypingFromPosition(TypingStep(charIndex, fullTextLength), fullTextLength, ticks - 1);
    }
  }

  /**
   * Where item `index` starts in the typed line: the characters all earlier
   * items add, so never before the end of the previous item's contribution.
   */
  function ItemStart(items: seq<SkillItem>, index: nat): (start: nat)
    requires index <= |items|
    ensures index > 0 ==> start >= Contribution(items, index - 1)
  {
    if index == 0 then 0 else ItemStart(items, index - 1) + Contribution(items, index - 1)
  }

  /** Adding an item at the end adds its name's length. */
  lemma {:induction false} NameLengthsSnoc(items: seq<SkillItem>, item: SkillItem)
    ensures NameLengths(items + [item]) == NameLengths(items) + |item.name|
  {
    if items == [] {
      assert [] + [item] == [item];
      assert [item][1..] == [];
    } else {
      assert (items + [item])[1..] == items[1..] + [item];
      NameLengthsSnoc(items[1..], item);
    }
  }

  /**
   * Every item starts after the names of the items before it and one
   * separator per earlier item: each start is the previous item's end plus 3.
   */
  lemma {:induction false} ItemStartClosedForm(items: seq<SkillItem>, index: nat)
    requires index < |items|
    ensures ItemStart(items, index) == NameLengths(items[..index]) + |Separator| * index
  {
    if index == 0 {
      assert items[..0] == [];
    } else {
      ItemStartClosedForm(items, index - 1);
      assert items[..index] == items[..index - 1] + [items[index - 1]];
      NameLengthsSnoc(items[..index - 1], items[index - 1]);
    }
  }

  /** The running count after the last item is `fullTextLength`. */
  lemma {:induction false} ItemStartOfEnd(items: seq<SkillItem>)
    ensures ItemStart(items, |items|) == FullTextLength(items)
  {
    ItemStartReduce(items, |items|);
  }

  /** The reduce from `index` on, started at the item start of `index`, is `fullTextLength`. */
  lemma {:induction false} ItemStartReduce(items: seq<SkillItem>, index: nat)
    requires index <= |items|
    ensures ReduceLength(items, index, ItemStart(items, index)) == FullTextLength(items)
  {
    if index > 0 {
      ItemStartReduce(items, index - 1);
    }
  }

  /**
   * What item `item` renders when it starts at `itemStart` and typing has
   * reached `charIndex`: nothing when typing has not reached it yet;
   * otherwise the icon, the clamped prefix of its name and, unless it is the
   * last item, the clamped prefix of the separator.
   */
  function RenderItem(item: SkillItem, itemStart: int, isLast: bool, charIndex: int): (v: Option<ItemView>)
    ensures v.None? <==> charIndex < itemStart
    ensures v.Some? ==> v.value.showIcon == (item.icon != [])
    ensures v.Some? ==> |v.value.text| <= |item.name| && v.value.text == item.name[..|v.value.text|]
    ensures v.Some? ==> |v.value.sep| <= |Separator| && v.value.sep == Separator[..|v.value.sep|]
    ensures v.Some? ==> |v.value.text| == Max(0, Min(|item.name|, charIndex - itemStart))
    ensures v.Some? && !isLast ==> |v.value.sep| == Max(0, Min(|Separator|, charIndex - itemStart - |item.name|))
    ensures v.Some? && isLast ==> v.value.sep == []
  {
    var itemEnd := itemStart + |item.name|;
    var showIcon := charIndex >= itemStart;
    var visibleTextLength := Max(0, Min(|item.name|, charIndex - itemStart));
    var visibleText := item.name[..visibleTextLength];
    var visibleSepLength := Max(0, Min(|Separator|, charIndex - itemEnd));
    var visibleSep := if isLast then [] else Separator[..visibleSepLength];
    if !showIcon && visibleTextLength == 0 && visibleSepLength == 0 then None
    else Some(ItemView(showIcon && item.icon != [], visibleText, visibleSep))
  }

  /** What item `index` of the list renders at typing position `charIndex`. */
  function ViewAt(items: seq<SkillItem>, index: nat, charIndex: int): Option<ItemView>
    requires index < |items|
  {
    RenderItem(items[index], ItemStart(items, index), index == |items| - 1, charIndex)
  }

  /** How many characters an item's view shows. */
  function Shown(v: Option<ItemView>): nat {
    if v.None? then 0 else |v.value.text| + |v.value.sep|
  }

  /** An item shows its name and separator length clamped to what typing has reached past its start. */
  lemma RenderItemShown(item: SkillItem, itemStart: int, isLast: bool, charIndex: int)
    ensures Shown(RenderItem(item, itemStart, isLast, charIndex))
         == Max(0, Min(|item.name| + (if isLast then 0 else |Separator|), charIndex - itemStart))
  {
  }

  /** An item of the list shows its contribution clamped to what typing has reached of it. */
  lemma ShownIsClamped(items: seq<SkillItem>, index: nat, charIndex: int)
    requires index < |items|
    ensures Shown(ViewAt(items, index, charIndex))
         == Max(0, Min(Contribution(items, index), charIndex - ItemStart(items, index)))
  {
    RenderItemShown(items[index], ItemStart(items, index), index == |items| - 1, charIndex);
  }

  /** The characters the first `count` items show. */
  function ShownUpTo(items: seq<SkillItem>, count: nat, charIndex: int): nat
    requires count <= |items|
  {
    if count == 0 then 0 else ShownUpTo(items, count - 1, charIndex) + Shown(ViewAt(items, count - 1, charIndex))
  }

  /** The first `count` items together show the typed part of their span. */
  lemma {:induction false} ShownUpToIsTyped(items: seq<SkillItem>, count: nat, charIndex: nat)
    requires count <= |items|
    ensures ShownUpTo(items, count, charIndex) == Min(charIndex, ItemStart(items, count))
  {
    if count > 0 {
      ShownUpToIsTyped(items, count - 1, charIndex);
      ShownIsClamped(items, count - 1, charIndex);
    }
  }

  /**
   * All items together show exactly the typed part of the line:
   * `min(charIndex, fullTextLength)` characters.
   */
  lemma TotalShownIsTyped(items: seq<SkillItem>, charIndex: nat)
    ensures ShownUpTo(items, |items|, charIndex) == Min(charIndex, FullTextLength(items))
  {
    ShownUpToIsTyped(items, |items|, charIndex);
    ItemStartOfEnd(items);
  }

  /**
   * The render loop: walks the items keeping the running character count,
   * and renders each item from where the previous one ended. Returns the
   * views and the final running count, which is `fullTextLength`.
   */
  method RenderItems(items: seq<SkillItem>, charIndex: int) returns (views: seq<Option<ItemView>>, runningCharCount: nat)
    ensures |views| == |items|
    ensures forall i :: 0 <= i < |items| ==> views[i] == ViewAt(items, i, charIndex)
    ensures runningCharCount == FullTextLength(items)
  {
    views := [];
    runningCharCount := 0;
    var index := 0;
    while index < |items|
      invariant 0 <= index <= |items|
      invariant runningCharCount == ItemStart(items, index)
      invariant |views| == index
      invariant forall i :: 0 <= i < index ==> views[i] == ViewAt(items, i, charIndex)
    {
      var item := items[index];
      var isLast := index == |items| - 1;
      var itemStart := runningCharCount;
      var itemEnd := itemStart + |item.name|;
      var sepEnd := itemEnd + (if isLast then 0 else |Separator|);
      runningCharCount := sepEnd;
      views := views + [RenderItem(item, itemStart, isLast, charIndex)];
      index := index + 1;
    }
    ItemStartOfEnd(items);
  }

  /** The typer's state: the items, the typing position, whether typing started and whether the interval runs. */
  class TerminalTyper {
    const items: seq<SkillItem>
    const fullTextLength: nat
    var charIndex: nat
    var startTyping: bool
    var ticking: bool

    ghost predicate Valid()
      reads this
    {
      fullTextLength == FullTextLength(items)
      && charIndex <= fullTextLength
      && (ticking ==> startTyping)
    }

    constructor (items0: seq<SkillItem>)
      ensures Valid()
      ensures items == items0 && charIndex == 0 && !startTyping && !ticking
    {
      items := items0;
      fullTextLength := FullTextLength(items0);
      charIndex := 0;
      startTyping := false;
      ticking := false;
    }

    /** The start delay has passed: typing starts and the typing interval is set up. */
    method Start()
      requires Valid()
      modifies this`startTyping, this`ticking
      ensures Valid() && startTyping && ticking
    {
      startTyping := true;
      ticking := true;
    }

    /** One interval tick: one more character, or clearing the interval once the line is typed. */
    method Tick()
      requires Valid() && ticking
      modifies this`charIndex, this`ticking
      ensures Valid()
      ensures charIndex == TypingStep(old(charIndex), fullTextLength)
      ensures ticking <==> old(charIndex) < fullTextLength
    {
      if charIndex < fullTextLength {
        charIndex := charIndex + 1;
      } else {
        ticking := false;
      }
    }

    /** The current render: the views of all items at the current typing position. */
    method Render() returns (views: seq<Option<ItemView>>)
      requires Valid()
      ensures |views| == |items|
      ensures forall i :: 0 <= i < |items| ==> views[i] == ViewAt(items, i, charIndex)
    {
      var running;
      views, running := RenderItems(items, charIndex);
    }
  }
}
