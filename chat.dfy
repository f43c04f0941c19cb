/**
 * The chat screen's message sectioning (`groupMessages`): a flat, ordered
 * message list is folded into one section per `sentAtDate`, in order of first
 * appearance, and inside each section into maximal runs ("batches") of
 * messages from the same sender. Also the rule that enables the send button.
 */
module ChatScreen {
  import opened Text
  import opened Sequences

  type UserId = string

  /** The `sentAtDate` string ('YYYY-MM-DD'), used as the grouping key. */
  type DateKey = string

  datatype Message = Message(userID: UserId, text: string, sentAtDate: DateKey, sentAtTime: string)

  datatype Batch = Batch(userID: UserId, messages: seq<Message>)

  /**
   * The accumulator of the reduce, a plain object keyed by date: its keys in
   * insertion order (the order `Object.keys` gives for date strings) and the
   * batch list under each key.
   */
  datatype Groups = Groups(keys: seq<DateKey>, byDate: map<DateKey, seq<Batch>>)

  /** The options handed to `toLocaleString`: month long and day numeric always. */
  datatype DateStyle = DateStyle(weekday: bool, year: bool)

  datatype Title = Title(date: DateKey, style: DateStyle)

  datatype Section = Section(title: Title, data: seq<Batch>)

  // ----- the specification of the reduce -----

  /** One step of the reduce: the accumulator after `item`. */
  function Step(groups: Groups, item: Message): Groups {
    var date := item.sentAtDate;
    if date !in groups.byDate then
      Groups(groups.keys + [date], groups.byDate[date := [Batch(item.userID, [item])]])
    else
      var batches := groups.byDate[date];
      if |batches| > 0 && batches[|batches| - 1].userID == item.userID then
        var last := batches[|batches| - 1];
        Groups(groups.keys, groups.byDate[date := batches[..|batches| - 1] + [Batch(last.userID, last.messages + [item])]])
      else
        Groups(groups.keys, groups.byDate[date := batches + [Batch(item.userID, [item])]])
  }

  /** The value of the reduce over `ms`, starting from `{}`. */
  function Grouped(ms: seq<Message>): Groups {
    if ms == [] then Groups([], map[]) else Step(Grouped(ms[..|ms| - 1]), ms[|ms| - 1])
  }

  /** The title of one date's section, given the year that date parses to. */
  function TitleOf(date: DateKey, year: int, currentYear: int): (t: Title)
    ensures t.date == date
    ensures t.style.year <==> year != currentYear
    ensures t.style.weekday <==> !t.style.year
  {
    if year != currentYear then Title(date, DateStyle(false, true)) else Title(date, DateStyle(true, false))
  }

  /** `Object.keys(groupedMessages).map(...)` */
  function BuildSections(keys: seq<DateKey>, byDate: map<DateKey, seq<Batch>>, yearOf: DateKey -> int, currentYear: int): seq<Section>
    requires forall k :: k in keys ==> k in byDate
  {
    if keys == [] then []
    else
      [Section(TitleOf(keys[0], yearOf(keys[0]), currentYear), byDate[keys[0]])]
      + BuildSections(keys[1..], byDate, yearOf, currentYear)
  }

  // ----- vocabulary for the properties -----

  /** All messages of a batch list, batch after batch. */
  function Messages(batches: seq<Batch>): seq<Message> {
    if batches == [] then [] else batches[0].messages + Messages(batches[1..])
  }

  /** All messages of a section list, section after section. */
  function SectionMessages(sections: seq<Section>): seq<Message> {
    if sections == [] then [] else Messages(sections[0].data) + SectionMessages(sections[1..])
  }

  function Dates(ms: seq<Message>): seq<DateKey> {
    if ms == [] then [] else Dates(ms[..|ms| - 1]) + [ms[|ms| - 1].sentAtDate]
  }

  /** The messages sent on `date`, in input order. */
  function OnDate(ms: seq<Message>, date: DateKey): seq<Message> {
    if ms == [] then []
    else OnDate(ms[..|ms| - 1], date) + (if ms[|ms| - 1].sentAtDate == date then [ms[|ms| - 1]] else [])
  }

  /**
   * A non-empty list of non-empty batches, all messages of a batch from the
   * batch's sender and sent on `date`, no two adjacent batches from the same sender.
   */
  ghost predicate Runs(batches: seq<Batch>, date: DateKey) {
    && |batches| > 0
    && (forall k :: 0 <= k < |batches| ==> |batches[k].messages| > 0)
    && (forall k, m :: 0 <= k < |batches| && m in batches[k].messages ==>
          m.userID == batches[k].userID && m.sentAtDate == date)
    && (forall k :: 0 < k < |batches| ==> batches[k - 1].userID != batches[k].userID)
  }

  /** The accumulator's entry for `d` is a batch list holding exactly the messages of `ms` sent on `d`. */
  ghost predicate DateShaped(ms: seq<Message>, groups: Groups, d: DateKey)
    requires d in groups.byDate
  {
    Runs(groups.byDate[d], d) && Messages(groups.byDate[d]) == OnDate(ms, d)
  }

  ghost predicate Shaped(ms: seq<Message>, groups: Groups) {
    && groups.keys == Dedup(Dates(ms))
    && (forall d :: d in groups.byDate <==> d in groups.keys)
    && (forall d :: d in groups.byDate ==> DateShaped(ms, groups, d))
  }

  /** The sections the screen shows for `ms`. */
  function Sections(ms: seq<Message>, yearOf: DateKey -> int, currentYear: int): seq<Section> {
    var groups := Grouped(ms);
    GroupedShape(ms);
    BuildSections(groups.keys, groups.byDate, yearOf, currentYear)
  }

  // ----- the code -----

  /**
   * `groupMessages`: the reduce, which updates the accumulator message by
   * message, followed by the titling map. `yearOf` is the year the viewer's
   * clock reads from `new Date(date)`; `currentYear` is this year.
   */
  method GroupMessages(messageList: seq<Message>, yearOf: DateKey -> int, currentYear: int) returns (sections: seq<Section>)
    ensures sections == Sections(messageList, yearOf, currentYear)
  {
    var keys: seq<DateKey> := [];
    var groups: map<DateKey, seq<Batch>> := map[];
    for i := 0 to |messageList|
      invariant Groups(keys, groups) == Grouped(messageList[..i])
      invariant forall d :: d in groups ==> |groups[d]| > 0
    {
      var item := messageList[i];
      var date := item.sentAtDate;
      if date !in groups {
        keys := keys + [date];
        groups := groups[date := [Batch(item.userID, [item])]];
      } else {
        var batches := groups[date];
        var lastBatch := batches[|batches| - 1];
        if lastBatch.userID == item.userID {
          groups := groups[date := batches[..|batches| - 1] + [Batch(lastBatch.userID, lastBatch.messages + [item])]];
        } else {
          groups := groups[date := batches + [Batch(item.userID, [item])]];
        }
      }
      assert messageList[..i + 1][..i] == messageList[..i];
    }
    assert messageList[..|messageList|] == messageList;
    GroupedShape(messageList);
    sections := BuildSections(keys, groups, yearOf, currentYear);
  }

  /** The send button is enabled iff the draft, trimmed of surrounding whitespace, is non-empty. */
  function SendEnabled(message: string): (enabled: bool)
    ensures enabled <==> exists i :: 0 <= i < |message| && !IsJsWhitespace(message[i])
  {
    TrimNonEmptyIff(message);
    |Trim(message)| > 0
  }

  // ----- proofs -----

  lemma {:induction false} MessagesConcat(a: seq<Batch>, b: seq<Batch>)
    ensures Messages(a + b) == Messages(a) + Messages(b)
  {
    if a == [] {
      assert a + b == b;
    } else {
      assert (a + b)[1..] == a[1..] + b;
      MessagesConcat(a[1..], b);
    }
  }

  lemma MessagesOne(b: Batch)
    ensures Messages([b]) == b.messages
  {
    assert [b][1..] == [];
  }

  /** The reduce builds one well-formed batch list per distinct date, holding that date's messages in order. */
  lemma {:induction false} GroupedShape(ms: seq<Message>)
    ensures Shaped(ms, Grouped(ms))
  {
    if ms != [] {
      var init, item := ms[..|ms| - 1], ms[|ms| - 1];
      assert ms == init + [item];
      GroupedShape(init);
      StepShaped(init, item, Grouped(init));
    }
  }

  /** One step of the reduce keeps the accumulator in shape. */
  lemma StepShaped(init: seq<Message>, item: Message, g: Groups)
    requires Shaped(init, g)
    ensures Shaped(init + [item], Step(g, item))
  {
    StepKeys(init, item, g);
    StepOtherDates(init, item, g);
    StepDate(init, item, g);
  }

  /** A date enters the key list the first time it is seen. */
  lemma StepKeys(init: seq<Message>, item: Message, g: Groups)
    requires Shaped(init, g)
    ensures Step(g, item).keys == Dedup(Dates(init + [item]))
    ensures forall d :: d in Step(g, item).byDate <==> d in Step(g, item).keys
  {
    var ms := init + [item];
    assert ms[..|ms| - 1] == init;
    DedupSpec(Dates(init));
  }

  /** The entries of the other dates are untouched, and so are those dates' messages. */
  lemma StepOtherDates(init: seq<Message>, item: Message, g: Groups)
    requires Shaped(init, g)
    ensures forall d :: d in Step(g, item).byDate && d != item.sentAtDate ==> DateShaped(init + [item], Step(g, item), d)
  {
    var ms := init + [item];
    assert ms[..|ms| - 1] == init;
    var g' := Step(g, item);
    forall d | d in g'.byDate && d != item.sentAtDate
      ensures DateShaped(ms, g', d)
    {
      assert g'.byDate[d] == g.byDate[d];
      assert OnDate(ms, d) == OnDate(init, d);
      assert DateShaped(init, g, d);
    }
  }

  /** The entry of the item's date gains the item at its end. */
  lemma StepDate(init: seq<Message>, item: Message, g: Groups)
    requires Shaped(init, g)
    ensures item.sentAtDate in Step(g, item).byDate && DateShaped(init + [item], Step(g, item), item.sentAtDate)
  {
    if item.sentAtDate !in g.byDate {
      StepNewDate(init, item, g);
    } else {
      StepKnownDate(init, item, g);
    }
  }

  /** A date seen for the first time gets one batch holding the item. */
  lemma StepNewDate(init: seq<Message>, item: Message, g: Groups)
    requires Shaped(init, g) && item.sentAtDate !in g.byDate
    ensures item.sentAtDate in Step(g, item).byDate && DateShaped(init + [item], Step(g, item), item.sentAtDate)
  {
    var ms := init + [item];
    assert ms[..|ms| - 1] == init;
    var date := item.sentAtDate;
    var one := Batch(item.userID, [item]);
    assert Step(g, item).byDate[date] == [one];
    DedupSpec(Dates(init));
    assert date !in Dates(init);
    OnDateAbsent(init, date);
    assert OnDate(ms, date) == [item];
    MessagesOne(one);
    assert Runs([one], date);
  }

  /** On a date already seen, the item joins the last batch or starts a new one. */
  lemma StepKnownDate(init: seq<Message>, item: Message, g: Groups)
    requires Shaped(init, g) && item.sentAtDate in g.byDate
    ensures item.sentAtDate in Step(g, item).byDate && DateShaped(init + [item], Step(g, item), item.sentAtDate)
  {
    var ms := init + [item];
    assert ms[..|ms| - 1] == init;
    var date := item.sentAtDate;
    assert OnDate(ms, date) == OnDate(init, date) + [item];
    assert DateShaped(init, g, date);
    var batches := g.byDate[date];
    var n := |batches|;
    if batches[n - 1].userID == item.userID {
      var last := batches[n - 1];
      assert Step(g, item).byDate[date] == batches[..n - 1] + [Batch(last.userID, last.messages + [item])];
      AppendToLastBatch(batches, item, date);
    } else {
      assert Step(g, item).byDate[date] == batches + [Batch(item.userID, [item])];
      StartNewBatch(batches, item, date);
      MessagesConcat(batches, [Batch(item.userID, [item])]);
      MessagesOne(Batch(item.userID, [item]));
    }
  }

  /** `lastBatch.messages.push(item)` keeps the runs and appends the item. */
  lemma AppendToLastBatch(batches: seq<Batch>, item: Message, date: DateKey)
    requires Runs(batches, date) && item.sentAtDate == date
    requires batches[|batches| - 1].userID == item.userID
    ensures var n := |batches|; var last := batches[n - 1];
      var nb := batches[..n - 1] + [Batch(last.userID, last.messages + [item])];
      Runs(nb, date) && Messages(nb) == Messages(batches) + [item]
  {
    LastBatchRuns(batches, item, date);
    LastBatchMessages(batches, item);
  }

  lemma LastBatchRuns(batches: seq<Batch>, item: Message, date: DateKey)
    requires Runs(batches, date) && item.sentAtDate == date
    requires batches[|batches| - 1].userID == item.userID
    ensures var n := |batches|; var last := batches[n - 1];
      Runs(batches[..n - 1] + [Batch(last.userID, last.messages + [item])], date)
  {
    var n := |batches|;
    var last := batches[n - 1];
    var nb := batches[..n - 1] + [Batch(last.userID, last.messages + [item])];
    forall k, m | 0 <= k < |nb| && m in nb[k].messages
      ensures m.userID == nb[k].userID && m.sentAtDate == date
    {
      if k < n - 1 { assert nb[k] == batches[k]; }
    }
    forall k | 0 < k < |nb| ensures nb[k - 1].userID != nb[k].userID {
      assert nb[k - 1] == batches[k - 1];
    }
  }

  lemma LastBatchMessages(batches: seq<Batch>, item: Message)
    requires |batches| > 0
    ensures var n := |batches|; var last := batches[n - 1];
      Messages(batches[..n - 1] + [Batch(last.userID, last.messages + [item])]) == Messages(batches) + [item]
  {
    var n := |batches|;
    var last := batches[n - 1];
    var grown := Batch(last.userID, last.messages + [item]);
    var front := Messages(batches[..n - 1]);
    assert batches == batches[..n - 1] + [last];
    MessagesConcat(batches[..n - 1], [last]);
    MessagesConcat(batches[..n - 1], [grown]);
    MessagesOne(last);
    MessagesOne(grown);
    assert front + (last.messages + [item]) == (front + last.messages) + [item];
  }

  /** `groups[date].push({ userID, messages: [item] })` keeps the runs. */
  lemma StartNewBatch(batches: seq<Batch>, item: Message, date: DateKey)
    requires Runs(batches, date) && item.sentAtDate == date
    requires batches[|batches| - 1].userID != item.userID
    ensures Runs(batches + [Batch(item.userID, [item])], date)
  {
    var n := |batches|;
    var nb := batches + [Batch(item.userID, [item])];
    forall k, m | 0 <= k < |nb| && m in nb[k].messages
      ensures m.userID == nb[k].userID && m.sentAtDate == date
    {
      if k < n { assert nb[k] == batches[k]; }
    }
  }

  lemma {:induction false} OnDateAbsent(ms: seq<Message>, date: DateKey)
    requires date !in Dates(ms)
    ensures OnDate(ms, date) == []
  {
    if ms != [] {
      assert Dates(ms) == Dates(ms[..|ms| - 1]) + [ms[|ms| - 1].sentAtDate];
      OnDateAbsent(ms[..|ms| - 1], date);
    }
  }

  /** The sections follow the keys, each holding its key's batch list and titled by its key. */
  lemma {:induction false} BuildSectionsSpec(keys: seq<DateKey>, byDate: map<DateKey, seq<Batch>>, yearOf: DateKey -> int, currentYear: int)
    requires forall k :: k in keys ==> k in byDate
    ensures |BuildSections(keys, byDate, yearOf, currentYear)| == |keys|
    ensures forall i :: 0 <= i < |keys| ==>
      BuildSections(keys, byDate, yearOf, currentYear)[i] == Section(TitleOf(keys[i], yearOf(keys[i]), currentYear), byDate[keys[i]])
  {
    if keys != [] {
      BuildSectionsSpec(keys[1..], byDate, yearOf, currentYear);
    }
  }

  /** The messages under `keys`, key after key. */
  function KeyMessages(keys: seq<DateKey>, byDate: map<DateKey, seq<Batch>>): seq<Message>
    requires forall k :: k in keys ==> k in byDate
  {
    if keys == [] then [] else Messages(byDate[keys[0]]) + KeyMessages(keys[1..], byDate)
  }

  /** Titling does not touch the batches: the sections hold the messages under the keys. */
  lemma {:induction false} SectionMessagesByKey(keys: seq<DateKey>, byDate: map<DateKey, seq<Batch>>, yearOf: DateKey -> int, cy: int)
    requires forall k :: k in keys ==> k in byDate
    ensures SectionMessages(BuildSections(keys, byDate, yearOf, cy)) == KeyMessages(keys, byDate)
  {
    if keys != [] {
      var s := BuildSections(keys, byDate, yearOf, cy);
      assert s[1..] == BuildSections(keys[1..], byDate, yearOf, cy);
      SectionMessagesByKey(keys[1..], byDate, yearOf, cy);
    }
  }

  lemma {:induction false} KeyMessagesUpdateAbsent(keys: seq<DateKey>, byDate: map<DateKey, seq<Batch>>, d: DateKey, v: seq<Batch>)
    requires forall k :: k in keys ==> k in byDate
    requires d !in keys
    ensures KeyMessages(keys, byDate[d := v]) == KeyMessages(keys, byDate)
  {
    if keys != [] {
      KeyMessagesUpdateAbsent(keys[1..], byDate, d, v);
    }
  }

  lemma MultisetConcat<T>(a: seq<T>, b: seq<T>)
    ensures multiset(a + b) == multiset(a) + multiset(b)
  {
  }

  lemma MultisetShift<T>(h: multiset<T>, x: multiset<T>, a: multiset<T>, y: multiset<T>, b: multiset<T>)
    requires x + a == y + b
    ensures (h + x) + a == (h + y) + b
  {
    assert (h + x) + a == h + (x + a);
    assert (h + y) + b == h + (y + b);
  }

  /** Replacing the batch list of one of a list of distinct keys swaps its messages in the total. */
  lemma {:induction false} KeyMessagesUpdate(keys: seq<DateKey>, byDate: map<DateKey, seq<Batch>>, d: DateKey, v: seq<Batch>)
    requires forall k :: k in keys ==> k in byDate
    requires Distinct(keys) && d in keys
    ensures multiset(KeyMessages(keys, byDate[d := v])) + multiset(Messages(byDate[d]))
      == multiset(KeyMessages(keys, byDate)) + multiset(Messages(v))
  {
    DistinctTail(keys);
    var rest := keys[1..];
    var updated := byDate[d := v];
    var head, head' := Messages(byDate[keys[0]]), Messages(updated[keys[0]]);
    var tail, tail' := KeyMessages(rest, byDate), KeyMessages(rest, updated);
    assert KeyMessages(keys, byDate) == head + tail;
    assert KeyMessages(keys, updated) == head' + tail';
    if keys[0] == d {
      KeyMessagesUpdateAbsent(rest, byDate, d, v);
      assert tail' == tail;
      MultisetConcat(head, tail);
      MultisetConcat(head', tail);
    } else {
      KeyMessagesUpdate(rest, byDate, d, v);
      assert head' == head;
      MultisetConcat(head, tail');
      MultisetConcat(head, tail);
      MultisetShift(multiset(head), multiset(tail'), multiset(Messages(byDate[d])), multiset(tail), multiset(Messages(v)));
    }
  }

  lemma {:induction false} KeyMessagesAppendKey(keys: seq<DateKey>, byDate: map<DateKey, seq<Batch>>, d: DateKey)
    requires forall k :: k in keys ==> k in byDate
    requires d in byDate
    ensures KeyMessages(keys + [d], byDate) == KeyMessages(keys, byDate) + Messages(byDate[d])
  {
    if keys == [] {
      assert [d][1..] == [];
    } else {
      var longer := keys + [d];
      var head := Messages(byDate[keys[0]]);
      assert longer[0] == keys[0] && longer[1..] == keys[1..] + [d];
      assert KeyMessages(longer, byDate) == head + KeyMessages(keys[1..] + [d], byDate);
      KeyMessagesAppendKey(keys[1..], byDate, d);
      assert KeyMessages(keys, byDate) == head + KeyMessages(keys[1..], byDate);
      assert head + (KeyMessages(keys[1..], byDate) + Messages(byDate[d])) == (head + KeyMessages(keys[1..], byDate)) + Messages(byDate[d]);
    }
  }

  /** The accumulator holds every message of the input once. */
  lemma {:induction false} GroupedPreservesMessages(ms: seq<Message>)
    ensures var g := Grouped(ms);
      (forall k :: k in g.keys ==> k in g.byDate) && multiset(KeyMessages(g.keys, g.byDate)) == multiset(ms)
  {
    GroupedShape(ms);
    if ms != [] {
      var init, item := ms[..|ms| - 1], ms[|ms| - 1];
      assert ms == init + [item];
      GroupedPreservesMessages(init);
      GroupedShape(init);
      if item.sentAtDate !in Grouped(init).byDate {
        StepNewDateMessages(init, item, Grouped(init));
      } else {
        StepSameDateMessages(init, item, Grouped(init));
      }
    }
  }

  /** A message on a new date adds a section whose messages are that one message. */
  lemma StepNewDateMessages(init: seq<Message>, item: Message, g: Groups)
    requires Shaped(init, g) && item.sentAtDate !in g.byDate
    requires multiset(KeyMessages(g.keys, g.byDate)) == multiset(init)
    ensures var g' := Step(g, item);
      (forall k :: k in g'.keys ==> k in g'.byDate) && multiset(KeyMessages(g'.keys, g'.byDate)) == multiset(init + [item])
  {
    var date := item.sentAtDate;
    var one := [Batch(item.userID, [item])];
    var updated := g.byDate[date := one];
    KeyMessagesUpdateAbsent(g.keys, g.byDate, date, one);
    KeyMessagesAppendKey(g.keys, updated, date);
    MessagesOne(Batch(item.userID, [item]));
    MultisetConcat(KeyMessages(g.keys, g.byDate), [item]);
    MultisetConcat(init, [item]);
  }

  /** A message on a known date lands in that date's batch list, nowhere else. */
  lemma StepSameDateMessages(init: seq<Message>, item: Message, g: Groups)
    requires Shaped(init, g) && item.sentAtDate in g.byDate
    requires multiset(KeyMessages(g.keys, g.byDate)) == multiset(init)
    ensures var g' := Step(g, item);
      (forall k :: k in g'.keys ==> k in g'.byDate) && multiset(KeyMessages(g'.keys, g'.byDate)) == multiset(init + [item])
  {
    var date := item.sentAtDate;
    StepDate(init, item, g);
    assert DateShaped(init, g, date);
    var g' := Step(g, item);
    var updated := g'.byDate[date];
    var ms := init + [item];
    assert ms[..|ms| - 1] == init;
    assert OnDate(ms, date) == OnDate(init, date) + [item];
    DedupSpec(Dates(init));
    assert g'.byDate == g.byDate[date := updated];
    KeyMessagesGrow(g.keys, g.byDate, date, updated, item);
    MultisetConcat(init, [item]);
  }

  /** Growing one key's messages by `item` grows the total by `item`. */
  lemma KeyMessagesGrow(keys: seq<DateKey>, byDate: map<DateKey, seq<Batch>>, d: DateKey, v: seq<Batch>, item: Message)
    requires forall k :: k in keys ==> k in byDate
    requires Distinct(keys) && d in keys
    requires Messages(v) == Messages(byDate[d]) + [item]
    ensures multiset(KeyMessages(keys, byDate[d := v])) == multiset(KeyMessages(keys, byDate)) + multiset{item}
  {
    KeyMessagesUpdate(keys, byDate, d, v);
    MultisetConcat(Messages(byDate[d]), [item]);
    MultisetCancel(multiset(KeyMessages(keys, byDate[d := v])), multiset(Messages(byDate[d])),
      multiset(KeyMessages(keys, byDate)), multiset{item});
  }

  lemma MultisetCancel<T>(x: multiset<T>, a: multiset<T>, y: multiset<T>, c: multiset<T>)
    requires x + a == y + (a + c)
    ensures x == y + c
  {
    assert y + (a + c) == (y + c) + a;
    forall e ensures x[e] == (y + c)[e] {
      assert (x + a)[e] == ((y + c) + a)[e];
    }
  }

  /** Every input message appears in exactly one batch of exactly one section: the sections hold a permutation of the input. */
  lemma SectionsPreserveMessages(ms: seq<Message>, yearOf: DateKey -> int, currentYear: int)
    ensures multiset(SectionMessages(Sections(ms, yearOf, currentYear))) == multiset(ms)
    ensures |SectionMessages(Sections(ms, yearOf, currentYear))| == |ms|
  {
    var g := Grouped(ms);
    GroupedShape(ms);
    SectionMessagesByKey(g.keys, g.byDate, yearOf, currentYear);
    GroupedPreservesMessages(ms);
    assert |multiset(SectionMessages(Sections(ms, yearOf, currentYear)))| == |multiset(ms)|;
  }

  /** The section titles run through the distinct dates of the input in order of first appearance. */
  lemma SectionsDates(ms: seq<Message>, yearOf: DateKey -> int, currentYear: int)
    ensures var s := Sections(ms, yearOf, currentYear);
      && |s| == |Dedup(Dates(ms))|
      && (forall i :: 0 <= i < |s| ==> s[i].title.date == Dedup(Dates(ms))[i])
  {
    var g := Grouped(ms);
    GroupedShape(ms);
    BuildSectionsSpec(g.keys, g.byDate, yearOf, currentYear);
  }

  /**
   * One section per date that occurs in the input, no date twice, ordered by
   * the first message sent on it.
   */
  lemma SectionsOrder(ms: seq<Message>, yearOf: DateKey -> int, currentYear: int)
    ensures var s := Sections(ms, yearOf, currentYear);
      && (forall i, j :: 0 <= i < j < |s| ==> s[i].title.date != s[j].title.date)
      && (forall d :: d in Dates(ms) <==> exists i :: 0 <= i < |s| && s[i].title.date == d)
      && (forall i, j :: 0 <= i < j < |s| ==>
            FirstIndex(Dates(ms), s[i].title.date) < FirstIndex(Dates(ms), s[j].title.date))
  {
    var s := Sections(ms, yearOf, currentYear);
    var keys := Dedup(Dates(ms));
    SectionsDates(ms, yearOf, currentYear);
    DedupSpec(Dates(ms));
    forall d | d in Dates(ms) ensures exists i :: 0 <= i < |s| && s[i].title.date == d {
      var i :| 0 <= i < |keys| && keys[i] == d;
      assert s[i].title.date == d;
    }
    forall i, j | 0 <= i < j < |s|
      ensures FirstIndex(Dates(ms), s[i].title.date) < FirstIndex(Dates(ms), s[j].title.date)
    {
      assert s[i].title.date == keys[i] && s[j].title.date == keys[j];
    }
  }

  /**
   * Each section holds its date's messages in input order, as maximal
   * same-sender runs; the title shows the year iff it is not the current one.
   */
  lemma SectionsContent(ms: seq<Message>, yearOf: DateKey -> int, currentYear: int)
    ensures var s := Sections(ms, yearOf, currentYear);
      && (forall i :: 0 <= i < |s| ==> Runs(s[i].data, s[i].title.date))
      && (forall i :: 0 <= i < |s| ==> Messages(s[i].data) == OnDate(ms, s[i].title.date))
      && (forall i :: 0 <= i < |s| ==> (s[i].title.style.year <==> yearOf(s[i].title.date) != currentYear))
      && (forall i :: 0 <= i < |s| ==> (s[i].title.style.weekday <==> yearOf(s[i].title.date) == currentYear))
  {
    var g := Grouped(ms);
    GroupedShape(ms);
    BuildSectionsSpec(g.keys, g.byDate, yearOf, currentYear);
    var s := Sections(ms, yearOf, currentYear);
    forall i | 0 <= i < |s|
      ensures Runs(s[i].data, s[i].title.date) && Messages(s[i].data) == OnDate(ms, s[i].title.date)
    {
      assert DateShaped(ms, g, g.keys[i]);
    }
  }

  lemma NoMessagesNoSections(yearOf: DateKey -> int, currentYear: int)
    ensures Sections([], yearOf, currentYear) == []
  {
  }
}
