/** The UPDATE statement that `UpdateTask` assembles from field masks: its text as a row of
    placeholders, its argument list, and what executing the two together does to the tasks table. */
module TaskUpdate {
  import opened Basics
  import opened Tables

  type Word32 = n: int | 0 <= n < 0x1_0000_0000
  type Int32 = n: int | -0x8000_0000 <= n < 0x8000_0000

  /** `TaskData` of the request; `start` is its do_date, dates are instants. */
  datatype TaskData = TaskData(
    title: string, desc: string, priority: Word32, state: Int32,
    pattern: string, active: bool, start: int, due: int, tags: seq<string>)

  datatype Mask = TITLE | DESC | PRIORITY | STATE | RECURRENCE | TAGS | UNKNOWN(code: int)

  /** What a `?` of the statement stands for. */
  datatype Slot = SetTitle | SetDesc | SetPriority | SetState | SetPattern | SetEnabled | WhereId | WhereOwner

  datatype Value = Text(s: string) | Number(n: int) | Flag(b: bool) | RequestId(text: IdText) | Subject(id: Uuid)

  /** Positional binding: store one argument in the column its placeholder names. */
  function Assign(row: Task, slot: Slot, v: Value): Task {
    match (slot, v)
    case (SetTitle, Text(s)) => row.(title := s)
    case (SetDesc, Text(s)) => row.(desc := Some(s))
    case (SetPriority, Number(n)) => row.(priority := n)
    case (SetState, Number(n)) => row.(state := n)
    case (SetPattern, Text(s)) => row.(pattern := Some(s))
    case (SetEnabled, Flag(b)) => row.(recurring := b)
    case _ => row
  }

  function AssignAll(row: Task, slots: seq<Slot>, args: seq<Value>): Task
    requires |slots| == |args|
  {
    if slots == [] then row
    else Assign(AssignAll(row, slots[..|slots| - 1], args[..|args| - 1]), slots[|slots| - 1], args[|args| - 1])
  }

  /** Do all WHERE placeholders accept the row? */
  predicate Selected(t: Uuid, row: Task, slots: seq<Slot>, args: seq<Value>)
    requires |slots| == |args|
  {
    forall i :: 0 <= i < |slots| ==>
      && (slots[i] == WhereId ==> args[i] == RequestId(Spelled(t, true)))
      && (slots[i] == WhereOwner ==> args[i] == Subject(row.owner))
  }

  function Execute(db: Db, slots: seq<Slot>, args: seq<Value>, now: int): Db
    requires |slots| == |args|
  {
    db.(tasks := map t | t in db.tasks ::
      if Selected(t, db.tasks[t], slots, args)
      then AssignAll(db.tasks[t], slots, args).(updated := now)
      else db.tasks[t])
  }

  /** The rows a statement updates and returns. */
  function Hits(db: Db, slots: seq<Slot>, args: seq<Value>): set<Uuid>
    requires |slots| == |args|
  {
    set t | t in db.tasks && Selected(t, db.tasks[t], slots, args)
  }

  // The fragment each mask adds

  function MaskSlots(mask: Mask): seq<Slot> {
    match mask
    case TITLE => [SetTitle]
    case DESC => [SetDesc]
    case PRIORITY => [SetPriority]
    case STATE => [SetState]
    case RECURRENCE => [SetPattern, SetEnabled]
    case _ => []
  }

  function MaskArgs(mask: Mask, data: TaskData): seq<Value> {
    match mask
    case TITLE => [Text(data.title)]
    case DESC => [Text(data.desc)]
    case PRIORITY => [Number(data.priority)]
    case STATE => [Number(data.state)]
    case RECURRENCE => [Text(data.pattern), Flag(data.active)]
    case _ => []
  }

  function SlotsOf(masks: seq<Mask>): seq<Slot> {
    if masks == [] then [] else SlotsOf(masks[..|masks| - 1]) + MaskSlots(masks[|masks| - 1])
  }

  function ArgsOf(masks: seq<Mask>, data: TaskData): seq<Value> {
    if masks == [] then [] else ArgsOf(masks[..|masks| - 1], data) + MaskArgs(masks[|masks| - 1], data)
  }

  // The intended meaning

  /** The request's value for the column a placeholder sets, or for the key it filters on. */
  function Requested(slot: Slot, data: TaskData, text: IdText, caller: Uuid): Value {
    match slot
    case SetTitle => Text(data.title)
    case SetDesc => Text(data.desc)
    case SetPriority => Number(data.priority)
    case SetState => Number(data.state)
    case SetPattern => Text(data.pattern)
    case SetEnabled => Flag(data.active)
    case WhereId => RequestId(text)
    case WhereOwner => Subject(caller)
  }

  /** The row with every masked field taken from the request and every other one kept. */
  function Overlay(row: Task, data: TaskData, masks: set<Mask>): Task {
    row.(
      title := if TITLE in masks then data.title else row.title,
      desc := if DESC in masks then Some(data.desc) else row.desc,
      priority := if PRIORITY in masks then data.priority else row.priority,
      state := if STATE in masks then data.state else row.state,
      pattern := if RECURRENCE in masks then Some(data.pattern) else row.pattern,
      recurring := if RECURRENCE in masks then data.active else row.recurring)
  }

  lemma {:induction false} SlotsAlign(masks: seq<Mask>, data: TaskData, text: IdText, caller: Uuid)
    ensures |SlotsOf(masks)| == |ArgsOf(masks, data)|
    ensures forall i :: 0 <= i < |SlotsOf(masks)| ==>
      && ArgsOf(masks, data)[i] == Requested(SlotsOf(masks)[i], data, text, caller)
      && SlotsOf(masks)[i] != WhereId && SlotsOf(masks)[i] != WhereOwner
  {
    if masks != [] { SlotsAlign(masks[..|masks| - 1], data, text, caller); }
  }

  lemma AssignOneMore(row: Task, slots: seq<Slot>, args: seq<Value>, slot: Slot, v: Value)
    requires |slots| == |args|
    ensures AssignAll(row, slots + [slot], args + [v]) == Assign(AssignAll(row, slots, args), slot, v)
  {
    assert (slots + [slot])[..|slots|] == slots && (args + [v])[..|args|] == args;
  }

  lemma OneMask(row: Task, slots: seq<Slot>, args: seq<Value>, mask: Mask, data: TaskData)
    requires |slots| == |args|
    ensures |MaskSlots(mask)| == |MaskArgs(mask, data)|
    ensures AssignAll(row, slots + MaskSlots(mask), args + MaskArgs(mask, data))
            == Overlay(AssignAll(row, slots, args), data, {mask})
  {
    if mask == RECURRENCE {
      Recurrence(row, slots, args, data);
    } else if mask == TAGS || mask.UNKNOWN? {
      assert slots + [] == slots && args + [] == args;
    } else {
      AssignOneMore(row, slots, args, MaskSlots(mask)[0], MaskArgs(mask, data)[0]);
      OneColumn(AssignAll(row, slots, args), mask, data);
      assert MaskSlots(mask) == [MaskSlots(mask)[0]] && MaskArgs(mask, data) == [MaskArgs(mask, data)[0]];
    }
  }

  lemma OneColumn(row: Task, mask: Mask, data: TaskData)
    requires mask != RECURRENCE && mask != TAGS && !mask.UNKNOWN?
    ensures Assign(row, MaskSlots(mask)[0], MaskArgs(mask, data)[0]) == Overlay(row, data, {mask})
  {
  }

  /** The one mask that sets two columns. */
  lemma Recurrence(row: Task, slots: seq<Slot>, args: seq<Value>, data: TaskData)
    requires |slots| == |args|
    ensures AssignAll(row, slots + [SetPattern, SetEnabled], args + [Text(data.pattern), Flag(data.active)])
            == Overlay(AssignAll(row, slots, args), data, {RECURRENCE})
  {
    AssignOneMore(row, slots, args, SetPattern, Text(data.pattern));
    AssignOneMore(row, slots + [SetPattern], args + [Text(data.pattern)], SetEnabled, Flag(data.active));
    assert slots + [SetPattern, SetEnabled] == slots + [SetPattern] + [SetEnabled];
    assert args + [Text(data.pattern), Flag(data.active)] == args + [Text(data.pattern)] + [Flag(data.active)];
  }

  lemma OverlayTwice(row: Task, data: TaskData, masks: set<Mask>, more: set<Mask>)
    ensures Overlay(Overlay(row, data, masks), data, more) == Overlay(row, data, masks + more)
  {
  }

  lemma OverlayStep(row: Task, slots: seq<Slot>, args: seq<Value>, masks: set<Mask>, mask: Mask, data: TaskData)
    requires |slots| == |args| && AssignAll(row, slots, args) == Overlay(row, data, masks)
    ensures |MaskSlots(mask)| == |MaskArgs(mask, data)|
    ensures AssignAll(row, slots + MaskSlots(mask), args + MaskArgs(mask, data)) == Overlay(row, data, masks + {mask})
  {
    OneMask(row, slots, args, mask, data);
    OverlayTwice(row, data, masks, {mask});
  }

  lemma LastElement<T>(s: seq<T>)
    requires s != []
    ensures Elements(s) == Elements(s[..|s| - 1]) + {s[|s| - 1]}
  {
    assert s == s[..|s| - 1] + [s[|s| - 1]];
  }

  lemma {:induction false} MasksOverlay(row: Task, masks: seq<Mask>, data: TaskData)
    ensures |SlotsOf(masks)| == |ArgsOf(masks, data)|
    ensures AssignAll(row, SlotsOf(masks), ArgsOf(masks, data)) == Overlay(row, data, Elements(masks))
  {
    if masks == [] {
      assert Elements(masks) == {} && Overlay(row, data, {}) == row;
    } else {
      var before, last := masks[..|masks| - 1], masks[|masks| - 1];
      MasksOverlay(row, before, data);
      OverlayStep(row, SlotsOf(before), ArgsOf(before, data), Elements(before), last, data);
      LastElement(masks);
    }
  }

  /** The WHERE clause stores nothing. */
  lemma WhereStoresNothing(row: Task, slots: seq<Slot>, args: seq<Value>, text: IdText, caller: Uuid)
    requires |slots| == |args|
    ensures AssignAll(row, slots + [WhereId, WhereOwner], args + [RequestId(text), Subject(caller)])
            == AssignAll(row, slots, args)
  {
    AssignOneMore(row, slots, args, WhereId, RequestId(text));
    AssignOneMore(row, slots + [WhereId], args + [RequestId(text)], WhereOwner, Subject(caller));
    assert slots + [WhereId, WhereOwner] == slots + [WhereId] + [WhereOwner];
    assert args + [RequestId(text), Subject(caller)] == args + [RequestId(text)] + [Subject(caller)];
  }

  /** And it alone selects. */
  lemma WhereSelects(t: Uuid, row: Task, sets: seq<Slot>, vals: seq<Value>, text: IdText, caller: Uuid)
    requires |sets| == |vals| && forall i :: 0 <= i < |sets| ==> sets[i] != WhereId && sets[i] != WhereOwner
    ensures Selected(t, row, sets + [WhereId, WhereOwner], vals + [RequestId(text), Subject(caller)])
            <==> text == Spelled(t, true) && row.owner == caller
  {
    var slots := sets + [WhereId, WhereOwner];
    assert slots[|sets|] == WhereId && slots[|sets| + 1] == WhereOwner;
  }

  /** One row under the whole statement. */
  lemma RowMeaning(t: Uuid, row: Task, masks: seq<Mask>, data: TaskData, text: IdText, caller: Uuid)
    ensures |SlotsOf(masks)| == |ArgsOf(masks, data)|
    ensures var slots, args := SlotsOf(masks) + [WhereId, WhereOwner],
                               ArgsOf(masks, data) + [RequestId(text), Subject(caller)];
      && AssignAll(row, slots, args) == Overlay(row, data, Elements(masks))
      && (Selected(t, row, slots, args) <==> text == Spelled(t, true) && row.owner == caller)
  {
    SlotsAlign(masks, data, text, caller);
    MasksOverlay(row, masks, data);
    WhereStoresNothing(row, SlotsOf(masks), ArgsOf(masks, data), text, caller);
    WhereSelects(t, row, SlotsOf(masks), ArgsOf(masks, data), text, caller);
  }

  /** Does the request name a row of the caller, in canonical spelling? */
  predicate Addresses(db: Db, text: IdText, caller: Uuid) {
    text.Spelled? && text.canonical && text.id in db.tasks && db.tasks[text.id].owner == caller
  }

  function Overlaid(db: Db, id: Uuid, data: TaskData, masks: set<Mask>, now: int): Db
    requires id in db.tasks
  {
    db.(tasks := db.tasks[id := Overlay(db.tasks[id], data, masks).(updated := now)])
  }

  /** What becomes of each row, and which are hit. */
  lemma RowsMeaning(db: Db, masks: seq<Mask>, data: TaskData, text: IdText, caller: Uuid, now: int, t: Uuid)
    requires |SlotsOf(masks)| == |ArgsOf(masks, data)| && t in db.tasks
    ensures var slots, args := SlotsOf(masks) + [WhereId, WhereOwner],
                               ArgsOf(masks, data) + [RequestId(text), Subject(caller)];
      var hit, row := Addresses(db, text, caller) && t == text.id, db.tasks[t];
      && Execute(db, slots, args, now).tasks[t] ==
         (if hit then Overlay(row, data, Elements(masks)).(updated := now) else row)
      && (t in Hits(db, slots, args) <==> hit)
  {
    RowMeaning(t, db.tasks[t], masks, data, text, caller);
  }

  /** The whole statement: the row of that id and owner is overlaid, no other row changes, and the
      outcome depends on the masks only as a set. */
  lemma StatementMeaning(db: Db, masks: seq<Mask>, data: TaskData, text: IdText, caller: Uuid, now: int)
    ensures |SlotsOf(masks)| == |ArgsOf(masks, data)|
    ensures var slots, args := SlotsOf(masks) + [WhereId, WhereOwner],
                               ArgsOf(masks, data) + [RequestId(text), Subject(caller)];
      && Hits(db, slots, args) == (if Addresses(db, text, caller) then {text.id} else {})
      && Execute(db, slots, args, now)
         == if Addresses(db, text, caller) then Overlaid(db, text.id, data, Elements(masks), now) else db
  {
    SlotsAlign(masks, data, text, caller);
    var slots, args := SlotsOf(masks) + [WhereId, WhereOwner], ArgsOf(masks, data) + [RequestId(text), Subject(caller)];
    var hit := Addresses(db, text, caller);
    forall t | t in db.tasks
      ensures Execute(db, slots, args, now).tasks[t] ==
        if hit && t == text.id then Overlay(db.tasks[t], data, Elements(masks)).(updated := now) else db.tasks[t]
      ensures t in Hits(db, slots, args) <==> hit && t == text.id
    {
      RowsMeaning(db, masks, data, text, caller, now, t);
    }
    if hit {
      OneRow(db, slots, args, now, text.id, Overlay(db.tasks[text.id], data, Elements(masks)).(updated := now));
    } else {
      NoRow(db, slots, args, now);
    }
  }

  lemma OneRow(db: Db, slots: seq<Slot>, args: seq<Value>, now: int, id: Uuid, row: Task)
    requires |slots| == |args| && id in db.tasks
    requires forall t :: t in db.tasks ==> (t in Hits(db, slots, args) <==> t == id)
    requires forall t :: t in db.tasks ==>
      Execute(db, slots, args, now).tasks[t] == if t == id then row else db.tasks[t]
    ensures Hits(db, slots, args) == {id} && Execute(db, slots, args, now) == db.(tasks := db.tasks[id := row])
  {
    assert Execute(db, slots, args, now).tasks == db.tasks[id := row];
  }

  lemma NoRow(db: Db, slots: seq<Slot>, args: seq<Value>, now: int)
    requires |slots| == |args|
    requires forall t :: t in db.tasks ==> t !in Hits(db, slots, args)
    requires forall t :: t in db.tasks ==> Execute(db, slots, args, now).tasks[t] == db.tasks[t]
    ensures Hits(db, slots, args) == {} && Execute(db, slots, args, now) == db
  {
    assert Execute(db, slots, args, now).tasks == db.tasks;
  }

  /** Masks act as a set: order and repetition do not matter. */
  lemma MaskOrderIrrelevant(db: Db, masks: seq<Mask>, others: seq<Mask>, data: TaskData, text: IdText, caller: Uuid,
                            now: int)
    requires Elements(masks) == Elements(others)
    ensures |SlotsOf(masks)| == |ArgsOf(masks, data)| && |SlotsOf(others)| == |ArgsOf(others, data)|
    ensures var wheres, keys := [WhereId, WhereOwner], [RequestId(text), Subject(caller)];
      Execute(db, SlotsOf(masks) + wheres, ArgsOf(masks, data) + keys, now)
      == Execute(db, SlotsOf(others) + wheres, ArgsOf(others, data) + keys, now)
  {
    StatementMeaning(db, masks, data, text, caller, now);
    StatementMeaning(db, others, data, text, caller, now);
  }

  /** The query builder: text and arguments grow together, and are only checked against each other
      when the statement is rendered. */
  class Query {
    var slots: seq<Slot>
    var args: seq<Value>

    constructor ()
      ensures slots == [] && args == []
    {
      slots, args := [], [];
    }

    method Concat(placeholders: seq<Slot>, values: seq<Value>)
      modifies this
      ensures slots == old(slots) + placeholders && args == old(args) + values
    {
      slots, args := slots + placeholders, args + values;
    }

    method ToSql() returns (r: Result<(seq<Slot>, seq<Value>), ()>)
      ensures r == if |slots| == |args| then Ok((slots, args)) else Err(())
    {
      r := if |slots| == |args| then Ok((slots, args)) else Err(());
    }
  }

  function FirstIndex<T(==)>(list: seq<T>, x: T): nat
    requires x in list
  {
    if list[0] == x then 0 else 1 + FirstIndex(list[1..], x)
  }

  lemma {:induction false} FirstIndexIsFirst<T>(list: seq<T>, x: T)
    requires x in list
    ensures FirstIndex(list, x) < |list| && list[FirstIndex(list, x)] == x && x !in list[..FirstIndex(list, x)]
  {
    if list[0] != x {
      FirstIndexIsFirst(list[1..], x);
      var k := FirstIndex(list[1..], x);
      assert list[..k + 1] == [list[0]] + list[1..][..k];
    }
  }

  lemma FirstIndexOf<T>(list: seq<T>, i: nat)
    requires i < |list| && list[i] !in list[..i]
    ensures FirstIndex(list, list[i]) == i
  {
    FirstIndexIsFirst(list, list[i]);
    assert forall m :: 0 <= m < i ==> list[m] in list[..i];
    assert forall m :: 0 <= m < FirstIndex(list, list[i]) ==> list[m] in list[..FirstIndex(list, list[i])];
  }

  /** The first occurrence of every item, in list order. */
  method RemoveDuplicate<T(==)>(items: seq<T>) returns (list: seq<T>)
    ensures NoRepeats(list)
    ensures forall x :: x in list <==> x in items
    ensures forall i, j :: 0 <= i < j < |list| ==> FirstIndex(items, list[i]) < FirstIndex(items, list[j])
  {
    var allKeys: map<T, bool> := map[];
    list := [];
    for n := 0 to |items|
      invariant forall x :: x in allKeys <==> x in items[..n]
      invariant forall x :: x in list <==> x in items[..n]
      invariant NoRepeats(list)
      invariant forall i :: 0 <= i < |list| ==> list[i] in items && FirstIndex(items, list[i]) < n
      invariant forall i, j :: 0 <= i < j < |list| ==> FirstIndex(items, list[i]) < FirstIndex(items, list[j])
    {
      var item := items[n];
      if item !in allKeys {
        allKeys := allKeys[item := true];
        FirstIndexOf(items, n);
        list := list + [item];
      }
    }
    assert items[..|items|] == items;
  }
}
