/** The resumable mailbox scan: limits over the mailboxes, and one page of messages from a cursor. */
module MailPaging {
  import opened Common

  const SCAN_LIMIT := 500
  const MAX_MAILBOX_COUNT := 1000000
  const PAGE_SCAN := 20
  const PAGE_MESSAGES := 8
  const BATCH := 8
  const PAGE_BYTES := 1900000
  const MAX_RECIPIENTS := 200

  /** `bytes` is the size of the message's serialised form, `recipients` how many it is addressed to. */
  datatype Message = Message(id: nat, received: int, bytes: nat, recipients: nat)

  /** What a page says of a message: its position in the list of selected mailboxes, and the message. */
  datatype Item = Item(box: nat, message: Message)

  // ---------- Limits ----------

  datatype Limits = Limits(each: seq<nat>, capped: bool) | TooLarge

  function Sum(s: seq<nat>): nat {
    if s == [] then 0 else Sum(s[..|s| - 1]) + s[|s| - 1]
  }

  lemma SumGrows(s: seq<nat>, x: nat)
    ensures Sum(s + [x]) == Sum(s) + x
  {
    assert (s + [x])[..|s|] == s;
  }

  function Min(a: nat, b: nat): nat {
    if a < b then a else b
  }

  /** What is left of the 500 for the mailbox at `i`. */
  function Left(counts: seq<nat>, i: nat): nat
    requires i <= |counts|
  {
    if Sum(counts[..i]) < SCAN_LIMIT then SCAN_LIMIT - Sum(counts[..i]) else 0
  }

  lemma LeftStep(counts: seq<nat>, i: nat)
    requires i < |counts|
    ensures Sum(counts[..i + 1]) == Sum(counts[..i]) + counts[i]
    ensures Left(counts, i + 1) == Left(counts, i) - Min(counts[i], Left(counts, i))
  {
    assert counts[..i + 1] == counts[..i] + [counts[i]];
    SumGrows(counts[..i], counts[i]);
  }

  /** What the first so many mailboxes got, what is left, and whether one of them got less than it has. */
  ghost predicate Handed(counts: seq<nat>, each: seq<nat>, i: nat, remaining: nat, capped: bool) {
    && i == |each| <= |counts| && (forall j | 0 <= j < i :: each[j] == Min(counts[j], Left(counts, j)))
    && remaining == Left(counts, i) && Sum(each) == SCAN_LIMIT - remaining
    && (capped <==> Sum(counts[..i]) > SCAN_LIMIT)
  }

  lemma HandOut(counts: seq<nat>, each: seq<nat>, i: nat, remaining: nat, capped: bool)
    requires i < |counts| && Handed(counts, each, i, remaining, capped)
    ensures var limit := Min(counts[i], remaining);
      limit <= remaining
      && Handed(counts, each + [limit], i + 1, remaining - limit, capped || limit < counts[i])
  {
    LeftStep(counts, i);
    SumGrows(each, Min(counts[i], remaining));
  }

  /** Mailboxes are served in order, each one whole, until 500 messages are handed out. */
  method Allocate(counts: seq<nat>) returns (r: Limits)
    ensures r.TooLarge? <==> exists i :: 0 <= i < |counts| && counts[i] > MAX_MAILBOX_COUNT
    ensures r.Limits? ==>
      && |r.each| == |counts| && (forall i | 0 <= i < |counts| :: r.each[i] == Min(counts[i], Left(counts, i)))
      && Sum(r.each) == Min(SCAN_LIMIT, Sum(counts))
      && (r.capped <==> Sum(counts) > SCAN_LIMIT)
  {
    var remaining: nat, capped, each: seq<nat> := SCAN_LIMIT, false, [];
    var i: nat := 0;
    while i < |counts|
      invariant Handed(counts, each, i, remaining, capped)
      invariant forall j | 0 <= j < i :: counts[j] <= MAX_MAILBOX_COUNT
    {
      var count := counts[i];
      if count > MAX_MAILBOX_COUNT { return TooLarge; }
      HandOut(counts, each, i, remaining, capped);
      var limit: nat := Min(count, remaining);
      remaining := remaining - limit;
      capped := capped || limit < count;
      each := each + [limit];
      i := i + 1;
    }
    assert counts[..|counts|] == counts;
    return Limits(each, capped);
  }

  // ---------- What is still to be read ----------

  /** A selected mailbox as it stands: its messages, of which the first `limit` are scanned. */
  datatype Box = Box(messages: seq<Message>, limit: nat)

  /** Within a mailbox an id stands for one message, and no mailbox is scanned beyond the overall limit. */
  ghost predicate BoxOk(box: Box) {
    && box.limit <= |box.messages| && box.limit <= SCAN_LIMIT
    && forall i, j | 0 <= i < j < |box.messages| :: box.messages[i].id != box.messages[j].id
  }

  ghost predicate BoxesOk(boxes: seq<Box>) {
    forall i | 0 <= i < |boxes| :: BoxOk(boxes[i])
  }

  datatype Cursor = Cursor(box: nat, offset: nat)

  datatype Window = Window(start: int, end: int)
  {
    predicate Has(m: Message) {
      start <= m.received < end
    }
  }

  function Rest(box: Box, at: nat, offset: nat, w: Window): seq<Item>
    requires box.limit <= |box.messages|
    decreases box.limit - offset
  {
    if offset >= box.limit then []
    else
      (if w.Has(box.messages[offset]) then [Item(at, box.messages[offset])] else [])
      + Rest(box, at, offset + 1, w)
  }

  /** Every message of the window from the cursor on, in order. */
  function Ahead(boxes: seq<Box>, c: Cursor, w: Window): seq<Item>
    requires forall i | 0 <= i < |boxes| :: boxes[i].limit <= |boxes[i].messages|
    decreases |boxes| - c.box
  {
    if c.box >= |boxes| then []
    else Rest(boxes[c.box], c.box, c.offset, w) + Ahead(boxes, Cursor(c.box + 1, 0), w)
  }

  /** Messages and mailboxes that the scan has not passed. */
  function Work(boxes: seq<Box>, c: Cursor): nat
    decreases |boxes| - c.box
  {
    if c.box >= |boxes| then 0
    else
      1 + (if c.offset < boxes[c.box].limit then boxes[c.box].limit - c.offset else 0)
      + Work(boxes, Cursor(c.box + 1, 0))
  }

  predicate Beyond(c: Cursor, d: Cursor) {
    c.box < d.box || (c.box == d.box && c.offset < d.offset)
  }

  /** How many messages lie between two places. */
  function Covered(boxes: seq<Box>, c: Cursor, d: Cursor): int {
    Work(boxes, c) - Work(boxes, d) - (d.box - c.box)
  }

  // ---------- One page ----------

  /** What becomes of one request to the mail program. */
  datatype Reply = Answered | TimedOut | Broken

  datatype Failure = Timeout | Unavailable | ResponseTooLarge

  function Why(r: Reply): Failure {
    if r == TimedOut then Timeout else Unavailable
  }

  datatype Page =
    | Page(items: seq<Item>, next: Option<Cursor>)
    | Failed(failure: Failure)

  function CursorOf(boxes: seq<Box>, p: Page): Cursor
    requires p.Page?
  {
    if p.next.Some? then p.next.value else Cursor(|boxes|, 0)
  }

  /** A page is the next stretch of what lies ahead, and the rest lies ahead of its cursor. */
  ghost predicate PageOk(boxes: seq<Box>, c: Cursor, w: Window, p: Page)
    requires BoxesOk(boxes)
  {
    p.Page? ==>
      && |p.items| <= PAGE_MESSAGES
      && p.items + Ahead(boxes, CursorOf(boxes, p), w) == Ahead(boxes, c, w)
      && Work(boxes, CursorOf(boxes, p)) <= Work(boxes, c)
      && (p.next.Some? ==> p.next.value.box < |boxes|)
  }

  function Bytes(items: seq<Item>): nat {
    if items == [] then 0 else Bytes(items[..|items| - 1]) + items[|items| - 1].message.bytes
  }

  /**
   * Why a page may stop before the end: it is full or has passed 20 messages, its time is over, or a message did
   * not come in time behind others that did.
   */
  ghost predicate MayStop(boxes: seq<Box>, cursor: Cursor, p: Page, late: nat -> bool, fetch: nat -> Reply, turns: nat)
    requires p.Page?
  {
    || |p.items| == PAGE_MESSAGES || Covered(boxes, cursor, CursorOf(boxes, p)) == PAGE_SCAN || late(turns)
    || (turns > 0 && fetch(turns - 1) == TimedOut && p.items != [])
  }

  /** A round fails only when the mail program does, or when what comes next cannot be put on a page. */
  ghost predicate Excused(boxes: seq<Box>, cursor: Cursor, w: Window, failure: Failure, batch: Reply, fetch: Reply)
    requires BoxesOk(boxes)
  {
    match failure
    case Timeout => batch == TimedOut || fetch == TimedOut
    case Unavailable => batch == Broken || fetch == Broken
    case ResponseTooLarge => TooMuch(Ahead(boxes, cursor, w))
  }

  /** Among the next few messages one has too many recipients, or they are too large for one page. */
  ghost predicate TooMuch(ahead: seq<Item>) {
    exists n {:trigger ahead[..n]} :: 0 <= n <= |ahead| && n <= PAGE_MESSAGES && Overfull(ahead[..n])
  }

  /** Small enough for one page. */
  ghost predicate Light(items: seq<Item>) {
    Bytes(items) < PAGE_BYTES && forall i | i in items :: i.message.recipients <= MAX_RECIPIENTS
  }

  ghost predicate Overfull(items: seq<Item>) {
    Bytes(items) >= PAGE_BYTES || (items != [] && items[|items| - 1].message.recipients > MAX_RECIPIENTS)
  }

  function BatchIds(box: Box, start: nat, count: nat): (ids: seq<nat>)
    requires BoxOk(box) && 1 <= start && 1 <= count <= BATCH && start + count - 1 <= SCAN_LIMIT
    requires start + count - 1 <= |box.messages|
    ensures |ids| == count && forall i | 0 <= i < count :: ids[i] == box.messages[start - 1 + i].id
  {
    IdsOf(box.messages[start - 1..start - 1 + count])
  }

  function IdsOf(messages: seq<Message>): (ids: seq<nat>)
    ensures |ids| == |messages| && forall i | 0 <= i < |ids| :: ids[i] == messages[i].id
  {
    if messages == [] then [] else [messages[0].id] + IdsOf(messages[1..])
  }

  /** The message of a mailbox with a given id. */
  function ById(messages: seq<Message>, id: nat): Option<Message> {
    if messages == [] then None
    else if messages[0].id == id then Some(messages[0])
    else ById(messages[1..], id)
  }

  lemma {:induction false} ByIdFinds(messages: seq<Message>, k: nat)
    requires k < |messages| && forall i, j | 0 <= i < j < |messages| :: messages[i].id != messages[j].id
    ensures ById(messages, messages[k].id) == Some(messages[k])
  {
    if k > 0 {
      assert messages[0].id != messages[k].id;
      ByIdFinds(messages[1..], k - 1);
    }
  }

  lemma StepInBox(boxes: seq<Box>, c: Cursor, w: Window)
    requires BoxesOk(boxes) && c.box < |boxes| && c.offset < boxes[c.box].limit
    ensures var m := boxes[c.box].messages[c.offset];
      Ahead(boxes, c, w) == (if w.Has(m) then [Item(c.box, m)] else []) + Ahead(boxes, Cursor(c.box, c.offset + 1), w)
    ensures Work(boxes, c) == Work(boxes, Cursor(c.box, c.offset + 1)) + 1
  {
    var m := boxes[c.box].messages[c.offset];
    Associates(if w.Has(m) then [Item(c.box, m)] else [],
               Rest(boxes[c.box], c.box, c.offset + 1, w), Ahead(boxes, Cursor(c.box + 1, 0), w));
  }

  lemma StepOverBox(boxes: seq<Box>, c: Cursor, w: Window)
    requires BoxesOk(boxes) && c.box < |boxes| && c.offset >= boxes[c.box].limit
    ensures Ahead(boxes, c, w) == Ahead(boxes, Cursor(c.box + 1, 0), w)
    ensures Work(boxes, c) == Work(boxes, Cursor(c.box + 1, 0)) + 1
  {
  }

  /** The ids at hand are those of the messages around the offset. */
  ghost predicate Batched(box: Box, ids: seq<nat>, idsOffset: nat, offset: nat) {
    && idsOffset <= offset <= idsOffset + |ids| <= |box.messages|
    && forall i | 0 <= i < |ids| :: ids[i] == box.messages[idsOffset + i].id
  }

  lemma BytesGrow(items: seq<Item>, i: Item)
    ensures Bytes(items + [i]) == Bytes(items) + i.message.bytes
  {
    assert (items + [i])[..|items|] == items;
  }

  /** How far a page has come after so many iterations. */
  ghost predicate Scanned(boxes: seq<Box>, cursor: Cursor, w: Window, items: seq<Item>, at: Cursor, scanned: nat,
                          turns: nat)
    requires BoxesOk(boxes)
  {
    && scanned == Covered(boxes, cursor, at)
    && items + Ahead(boxes, at, w) == Ahead(boxes, cursor, w)
    && (turns == 0 ==> at == cursor && items == [])
    && (turns > 0 ==> Beyond(cursor, at) && Work(boxes, at) < Work(boxes, cursor))
    && at.box <= |boxes|
  }

  lemma ScanOver(boxes: seq<Box>, cursor: Cursor, w: Window, items: seq<Item>, at: Cursor, scanned: nat,
                turns: nat)
    requires BoxesOk(boxes) && Scanned(boxes, cursor, w, items, at, scanned, turns)
    requires at.box < |boxes| && at.offset >= boxes[at.box].limit
    ensures Scanned(boxes, cursor, w, items, Cursor(at.box + 1, 0), scanned, turns + 1)
  {
    StepOverBox(boxes, at, w);
  }

  lemma ScanSkip(boxes: seq<Box>, cursor: Cursor, w: Window, items: seq<Item>, at: Cursor, scanned: nat,
                turns: nat)
    requires BoxesOk(boxes) && Scanned(boxes, cursor, w, items, at, scanned, turns)
    requires at.box < |boxes| && at.offset < boxes[at.box].limit && !w.Has(boxes[at.box].messages[at.offset])
    ensures Scanned(boxes, cursor, w, items, Cursor(at.box, at.offset + 1), scanned + 1, turns + 1)
  {
    StepInBox(boxes, at, w);
    assert [] + Ahead(boxes, Cursor(at.box, at.offset + 1), w) == Ahead(boxes, Cursor(at.box, at.offset + 1), w);
  }

  lemma ScanTake(boxes: seq<Box>, cursor: Cursor, w: Window, items: seq<Item>, at: Cursor, scanned: nat,
                turns: nat, m: Message)
    requires BoxesOk(boxes) && Scanned(boxes, cursor, w, items, at, scanned, turns)
    requires at.box < |boxes| && at.offset < boxes[at.box].limit && m == boxes[at.box].messages[at.offset] && w.Has(m)
    ensures Scanned(boxes, cursor, w, items + [Item(at.box, m)], Cursor(at.box, at.offset + 1), scanned + 1, turns + 1)
    ensures Bytes(items + [Item(at.box, m)]) == Bytes(items) + m.bytes
  {
    StepInBox(boxes, at, w);
    BytesGrow(items, Item(at.box, m));
    Associates(items, [Item(at.box, m)], Ahead(boxes, Cursor(at.box, at.offset + 1), w));
  }

  /** The id at hand is that of the message at the offset. */
  lemma RightMessage(box: Box, ids: seq<nat>, idsOffset: nat, offset: nat)
    requires BoxOk(box) && Batched(box, ids, idsOffset, offset) && offset < idsOffset + |ids|
    ensures ById(box.messages, ids[offset - idsOffset]) == Some(box.messages[offset])
  {
    ByIdFinds(box.messages, offset);
    assert ids[offset - idsOffset] == box.messages[idsOffset + (offset - idsOffset)].id;
  }

  datatype Requested = NoIds | NoMessage | Read(message: Message)

  /** Ask for the next ids where none are at hand, then for the message at the offset. */
  method Request(box: Box, stale: bool, held: seq<nat>, heldOffset: nat, offset: nat, b: Reply, f: Reply)
    returns (r: Requested, ids: seq<nat>, idsOffset: nat)
    requires BoxOk(box) && offset < box.limit && (!stale ==> Batched(box, held, heldOffset, offset))
    ensures r.NoIds? <==> (stale || offset >= heldOffset + |held|) && b != Answered
    ensures r.NoMessage? <==> !r.NoIds? && f != Answered
    ensures r.Read? ==> f == Answered && r.message == box.messages[offset] && Batched(box, ids, idsOffset, offset + 1)
  {
    ids, idsOffset := held, heldOffset;
    if stale || offset >= idsOffset + |ids| {
      if b != Answered { return NoIds, ids, idsOffset; }
      ids := BatchIds(box, offset + 1, Min(BATCH, box.limit - offset));
      idsOffset := offset;
    }
    if f != Answered { return NoMessage, ids, idsOffset; }
    RightMessage(box, ids, idsOffset, offset);
    r := Read(ById(box.messages, ids[offset - idsOffset]).value);
  }

  ghost predicate Advances(boxes: seq<Box>, cursor: Cursor, p: Page)
    requires p.Page?
  {
    Work(boxes, CursorOf(boxes, p)) < Work(boxes, cursor) && Beyond(cursor, CursorOf(boxes, p))
  }

  /** What a call promises about the page it gives after so many iterations. */
  ghost predicate Delivers(boxes: seq<Box>, cursor: Cursor, w: Window, page: Page, turns: nat)
    requires BoxesOk(boxes)
  {
    PageOk(boxes, cursor, w, page) && (page.Page? && turns > 0 ==> Advances(boxes, cursor, page))
  }

  /** The page ends with the mailbox at hand; one that is used up is passed. */
  method EndPage(boxes: seq<Box>, ghost cursor: Cursor, ghost w: Window, items: seq<Item>, at: Cursor,
                 ghost scanned: nat, ghost turns: nat)
    returns (page: Page)
    requires BoxesOk(boxes) && Scanned(boxes, cursor, w, items, at, scanned, turns) && |items| <= PAGE_MESSAGES
    requires cursor.box < |boxes|
    ensures page.Page? && page.items == items && Delivers(boxes, cursor, w, page, turns)
    ensures Covered(boxes, cursor, CursorOf(boxes, page)) == scanned
    ensures at.box >= |boxes| ==> page.next.None?
  {
    var boxIndex, offset := at.box, at.offset;
    if boxIndex < |boxes| && offset >= boxes[boxIndex].limit {
      StepOverBox(boxes, at, w);
      boxIndex, offset := boxIndex + 1, 0;
    }
    page := Page(items, if boxIndex >= |boxes| then None else Some(Cursor(boxIndex, offset)));
  }

  lemma CutPage(boxes: seq<Box>, cursor: Cursor, w: Window, items: seq<Item>, at: Cursor, scanned: nat,
                turns: nat)
    requires BoxesOk(boxes) && Scanned(boxes, cursor, w, items, at, scanned, turns) && |items| <= PAGE_MESSAGES
    requires items != [] && at.box < |boxes|
    ensures Delivers(boxes, cursor, w, Page(items, Some(at)), turns + 1)
  {
  }

  /** The scan's variables. */
  datatype Progress = Progress(
    at: Cursor, items: seq<Item>, scanned: nat, totalBytes: nat, ids: seq<nat>, idsOffset: nat, idsBox: Option<nat>)

  ghost predicate Going(boxes: seq<Box>, cursor: Cursor, w: Window, p: Progress, turns: nat)
    requires BoxesOk(boxes)
  {
    && Scanned(boxes, cursor, w, p.items, p.at, p.scanned, turns) && p.scanned <= PAGE_SCAN
    && |p.items| <= PAGE_MESSAGES && p.totalBytes == Bytes(p.items) && Light(p.items)
    && (p.idsBox.Some? ==> p.idsBox.value <= p.at.box)
    && (p.idsBox == Some(p.at.box) && p.at.box < |boxes| ==>
          Batched(boxes[p.at.box], p.ids, p.idsOffset, p.at.offset))
  }

  lemma FrontTooLarge(boxes: seq<Box>, cursor: Cursor, w: Window, items: seq<Item>, i: Item, at: Cursor,
                      scanned: nat, turns: nat)
    requires BoxesOk(boxes) && Scanned(boxes, cursor, w, items + [i], at, scanned, turns) && |items| < PAGE_MESSAGES
    requires i.message.recipients > MAX_RECIPIENTS || Bytes(items + [i]) >= PAGE_BYTES
    ensures TooMuch(Ahead(boxes, cursor, w))
  {
    var front := items + [i];
    assert (front + Ahead(boxes, at, w))[..|front|] == front;
    assert front[|front| - 1] == i;
  }

  lemma StaysLight(items: seq<Item>, i: Item)
    requires Light(items) && i.message.recipients <= MAX_RECIPIENTS && Bytes(items + [i]) < PAGE_BYTES
    ensures Light(items + [i])
  {
  }

  /** The message at the offset has been dealt with, and the ids at hand reach beyond it. */
  lemma GoesOn(boxes: seq<Box>, cursor: Cursor, w: Window, p: Progress, q: Progress, turns: nat)
    requires BoxesOk(boxes) && p.at.box < |boxes|
    requires p.idsBox == Some(p.at.box) && Batched(boxes[p.at.box], p.ids, p.idsOffset, p.at.offset + 1)
    requires (q.ids, q.idsOffset, q.idsBox) == (p.ids, p.idsOffset, p.idsBox)
    requires q.at == Cursor(p.at.box, p.at.offset + 1) && Scanned(boxes, cursor, w, q.items, q.at, q.scanned, turns)
    requires |q.items| <= PAGE_MESSAGES && q.totalBytes == Bytes(q.items) && Light(q.items)
    requires q.scanned <= PAGE_SCAN
    ensures Going(boxes, cursor, w, q, turns)
  {
  }

  /** The message at the offset of a mailbox is at hand. */
  ghost predicate AtHand(boxes: seq<Box>, cursor: Cursor, w: Window, p: Progress, m: Message, turn: nat)
    requires BoxesOk(boxes)
  {
    && Going(boxes, cursor, w, p.(ids := [], idsBox := None), turn)
    && |p.items| < PAGE_MESSAGES && p.scanned < PAGE_SCAN
    && p.at.box < |boxes| && p.at.offset < boxes[p.at.box].limit && m == boxes[p.at.box].messages[p.at.offset]
    && p.idsBox == Some(p.at.box) && Batched(boxes[p.at.box], p.ids, p.idsOffset, p.at.offset + 1)
  }

  lemma SkipGoesOn(boxes: seq<Box>, cursor: Cursor, w: Window, p: Progress, q: Progress, m: Message, turn: nat)
    requires BoxesOk(boxes) && AtHand(boxes, cursor, w, p, m, turn) && !w.Has(m)
    requires q == p.(at := Cursor(p.at.box, p.at.offset + 1), scanned := p.scanned + 1)
    ensures Going(boxes, cursor, w, q, turn + 1)
  {
    hide Scanned;
    ScanSkip(boxes, cursor, w, p.items, p.at, p.scanned, turn);
    GoesOn(boxes, cursor, w, p, q, turn + 1);
  }

  lemma TakeGoesOn(boxes: seq<Box>, cursor: Cursor, w: Window, p: Progress, q: Progress, m: Message, turn: nat)
    requires BoxesOk(boxes) && AtHand(boxes, cursor, w, p, m, turn) && w.Has(m)
    requires q == p.(at := Cursor(p.at.box, p.at.offset + 1), scanned := p.scanned + 1,
                     totalBytes := p.totalBytes + m.bytes, items := p.items + [Item(p.at.box, m)])
    ensures if m.recipients > MAX_RECIPIENTS || q.totalBytes >= PAGE_BYTES then TooMuch(Ahead(boxes, cursor, w))
            else Going(boxes, cursor, w, q, turn + 1)
  {
    hide Scanned;
    ScanTake(boxes, cursor, w, p.items, p.at, p.scanned, turn, m);
    if m.recipients > MAX_RECIPIENTS || q.totalBytes >= PAGE_BYTES {
      FrontTooLarge(boxes, cursor, w, p.items, Item(p.at.box, m), q.at, q.scanned, turn + 1);
    } else {
      StaysLight(p.items, Item(p.at.box, m));
      GoesOn(boxes, cursor, w, p, q, turn + 1);
    }
  }

  /** A message that came: it is passed over, or it joins the page unless that is too much for one page. */
  method Take(boxes: seq<Box>, ghost cursor: Cursor, w: Window, p: Progress, m: Message, ghost turn: nat)
    returns (q: Progress, stop: Option<Page>)
    requires BoxesOk(boxes) && AtHand(boxes, cursor, w, p, m, turn)
    ensures stop.None? ==> Going(boxes, cursor, w, q, turn + 1) && q.at == Cursor(p.at.box, p.at.offset + 1)
    ensures stop.Some? ==> stop == Some(Failed(ResponseTooLarge)) && TooMuch(Ahead(boxes, cursor, w))
  {
    q, stop := p.(at := Cursor(p.at.box, p.at.offset + 1), scanned := p.scanned + 1), None;
    if !w.Has(m) {
      SkipGoesOn(boxes, cursor, w, p, q, m, turn);
      return;
    }
    q := q.(totalBytes := p.totalBytes + m.bytes, items := p.items + [Item(p.at.box, m)]);
    TakeGoesOn(boxes, cursor, w, p, q, m, turn);
    if m.recipients > MAX_RECIPIENTS || q.totalBytes >= PAGE_BYTES { stop := Some(Failed(ResponseTooLarge)); }
  }

  /** The round asks for a message, and first for ids if none are at hand. */
  predicate Reads(boxes: seq<Box>, p: Progress) {
    p.at.box < |boxes| && p.at.offset < boxes[p.at.box].limit
  }

  predicate Stale(boxes: seq<Box>, p: Progress) {
    Reads(boxes, p) && (p.idsBox != Some(p.at.box) || p.at.offset >= p.idsOffset + |p.ids|)
  }

  /** A message that did not come: what was read before it makes a page if it only took too long. */
  method GiveUp(boxes: seq<Box>, ghost cursor: Cursor, ghost w: Window, p: Progress, ghost turn: nat, f: Reply)
    returns (page: Page)
    requires BoxesOk(boxes) && Going(boxes, cursor, w, p, turn) && p.at.box < |boxes| && f != Answered
    ensures page == if f == TimedOut && p.items != [] then Page(p.items, Some(p.at)) else Failed(Why(f))
    ensures page.Page? ==> Delivers(boxes, cursor, w, page, turn + 1)
  {
    if f == TimedOut && p.items != [] {
      CutPage(boxes, cursor, w, p.items, p.at, p.scanned, turn);
      return Page(p.items, Some(p.at));
    }
    return Failed(Why(f));
  }

  predicate AfterRound(c: Cursor, d: Cursor) {
    d == Cursor(c.box + 1, 0) || (d == Cursor(c.box, c.offset + 1) && c.offset < SCAN_LIMIT)
  }

  /** A round that asks for a message. */
  method Attempt(boxes: seq<Box>, ghost cursor: Cursor, w: Window, p: Progress, ghost turn: nat, b: Reply, f: Reply)
    returns (q: Progress, stop: Option<Page>)
    requires BoxesOk(boxes) && Going(boxes, cursor, w, p, turn) && Reads(boxes, p)
    requires |p.items| < PAGE_MESSAGES && p.scanned < PAGE_SCAN
    ensures stop.None? ==> Going(boxes, cursor, w, q, turn + 1) && q.at == Cursor(p.at.box, p.at.offset + 1)
    ensures stop.Some? && stop.value.Page? ==> Delivers(boxes, cursor, w, stop.value, turn + 1)
    ensures stop == Some(Failed(ResponseTooLarge)) ==> TooMuch(Ahead(boxes, cursor, w))
    ensures if Stale(boxes, p) && b != Answered then stop == Some(Failed(Why(b)))
            else if f == TimedOut && p.items != [] then stop == Some(Page(p.items, Some(p.at)))
            else if f != Answered then stop == Some(Failed(Why(f)))
            else stop.None? || stop == Some(Failed(ResponseTooLarge))
  {
    var box := boxes[p.at.box];
    var r, ids, idsOffset := Request(box, p.idsBox != Some(p.at.box), p.ids, p.idsOffset, p.at.offset, b, f);
    q := p.(ids := ids, idsOffset := idsOffset, idsBox := Some(p.at.box));
    match r
    case NoIds => stop := Some(Failed(Why(b)));
    case NoMessage =>
      var page := GiveUp(boxes, cursor, w, p, turn, f);
      stop := Some(page);
    case Read(m) => q, stop := Take(boxes, cursor, w, q, m, turn);
  }

  /** One round of the loop: it goes on, or it ends the page. */
  method Turn(boxes: seq<Box>, ghost cursor: Cursor, w: Window, p: Progress, turn: nat, b: Reply, f: Reply)
    returns (q: Progress, stop: Option<Page>)
    requires BoxesOk(boxes) && Going(boxes, cursor, w, p, turn)
    requires |p.items| < PAGE_MESSAGES && p.at.box < |boxes| && p.scanned < PAGE_SCAN
    ensures stop.None? ==> Going(boxes, cursor, w, q, turn + 1) && AfterRound(p.at, q.at)
    ensures stop.Some? && stop.value.Page? ==> Delivers(boxes, cursor, w, stop.value, turn + 1)
    ensures stop.Some? && stop.value.Failed? ==> Excused(boxes, cursor, w, stop.value.failure, b, f)
    ensures if !Reads(boxes, p) then stop.None?
            else if Stale(boxes, p) && b != Answered then stop == Some(Failed(Why(b)))
            else if f == TimedOut && p.items != [] then stop == Some(Page(p.items, Some(p.at)))
            else if f != Answered then stop == Some(Failed(Why(f)))
            else stop.None? || stop == Some(Failed(ResponseTooLarge))
  {
    if p.at.offset >= boxes[p.at.box].limit {
      ScanOver(boxes, cursor, w, p.items, p.at, p.scanned, turn);
      return p.(at := Cursor(p.at.box + 1, 0)), None;
    }
    q, stop := Attempt(boxes, cursor, w, p, turn, b, f);
  }

  /** Why a call fails: the watchdog of the whole process strikes, or its last round had to fail. */
  ghost predicate MayFail(boxes: seq<Box>, cursor: Cursor, w: Window, failure: Failure, m: MailProgram, turns: nat)
    requires BoxesOk(boxes)
  {
    || (failure == Timeout && m.over(turns))
    || (turns > 0 && Excused(boxes, cursor, w, failure, m.batch(turns - 1), m.fetch(turns - 1)))
  }

  /**
   * What the world does to one call: `late(k)` says whether the page's time is over before its iteration
   * `k`, `over(k)` whether the watchdog's 28 seconds end in that iteration (or, after the last one,
   * before the page is written), `batch(k)` and `fetch(k)` what becomes of the iteration's requests.
   */
  datatype MailProgram = MailProgram(late: nat -> bool, over: nat -> bool, batch: nat -> Reply, fetch: nat -> Reply)

  /** One call with a cursor; `turns` counts the iterations. A struck watchdog discards what was read. */
  method Scan(boxes: seq<Box>, cursor: Cursor, w: Window, m: MailProgram) returns (page: Page, turns: nat)
    requires BoxesOk(boxes) && cursor.box < |boxes|
    ensures Delivers(boxes, cursor, w, page, turns)
    ensures page.Page? ==> Covered(boxes, cursor, CursorOf(boxes, page)) <= PAGE_SCAN && Light(page.items)
    ensures page.Page? && page.next.Some? ==> MayStop(boxes, cursor, page, m.late, m.fetch, turns)
    ensures page.Failed? ==> MayFail(boxes, cursor, w, page.failure, m, turns)
    ensures forall k | 0 <= k < turns :: !m.over(k)
  {
    var p := Progress(cursor, [], 0, 0, [], 0, None);
    turns := 0;
    assert Going(boxes, cursor, w, p, turns);
    hide Scanned;
    while p.at.box < |boxes| && p.scanned < PAGE_SCAN && |p.items| < PAGE_MESSAGES && !m.late(turns)
      invariant Going(boxes, cursor, w, p, turns) && forall k | 0 <= k < turns :: !m.over(k)
      decreases |boxes| - p.at.box, if p.at.offset < SCAN_LIMIT then SCAN_LIMIT - p.at.offset else 0
    {
      if m.over(turns) { return Failed(Timeout), turns; }
      var stop;
      p, stop := Turn(boxes, cursor, w, p, turns, m.batch(turns), m.fetch(turns));
      turns := turns + 1;
      if stop.Some? { return stop.value, turns; }
    }
    if m.over(turns) { return Failed(Timeout), turns; }
    page := EndPage(boxes, cursor, w, p.items, p.at, p.scanned, turns);
  }

  // ---------- Page after page ----------

  /** Pages that were read one after the other, each from the cursor of the one before it. */
  ghost predicate Chain(boxes: seq<Box>, c: Cursor, w: Window, pages: seq<Page>)
    requires BoxesOk(boxes)
    decreases |pages|
  {
    pages != [] ==>
      && pages[0].Page? && PageOk(boxes, c, w, pages[0])
      && Chain(boxes, CursorOf(boxes, pages[0]), w, pages[1..])
  }

  function Together(pages: seq<Page>): seq<Item>
    requires forall p | p in pages :: p.Page?
  {
    if pages == [] then [] else pages[0].items + Together(pages[1..])
  }

  function After(boxes: seq<Box>, c: Cursor, pages: seq<Page>): Cursor
    requires forall p | p in pages :: p.Page?
    decreases |pages|
  {
    if pages == [] then c else After(boxes, CursorOf(boxes, pages[0]), pages[1..])
  }

  lemma {:induction false} ChainIsPages(boxes: seq<Box>, c: Cursor, w: Window, pages: seq<Page>)
    requires BoxesOk(boxes) && Chain(boxes, c, w, pages)
    ensures forall p | p in pages :: p.Page?
    decreases |pages|
  {
    if pages != [] {
      ChainIsPages(boxes, CursorOf(boxes, pages[0]), w, pages[1..]);
      assert forall p | p in pages :: p == pages[0] || p in pages[1..];
    }
  }

  /** However the scan was cut into pages, they and what lies ahead of the last are what one scan would give. */
  lemma {:induction false} PagesMakeOneScan(boxes: seq<Box>, c: Cursor, w: Window, pages: seq<Page>)
    requires BoxesOk(boxes) && Chain(boxes, c, w, pages) && forall p | p in pages :: p.Page?
    ensures Together(pages) + Ahead(boxes, After(boxes, c, pages), w) == Ahead(boxes, c, w)
    decreases |pages|
  {
    if pages != [] {
      var d := CursorOf(boxes, pages[0]);
      PagesMakeOneScan(boxes, d, w, pages[1..]);
      Associates(pages[0].items, Together(pages[1..]), Ahead(boxes, After(boxes, c, pages), w));
    }
  }

  /** Once a page says it is the last one, all messages of the window have been given: each once, in order. */
  lemma CompleteScan(boxes: seq<Box>, w: Window, pages: seq<Page>)
    requires BoxesOk(boxes) && pages != [] && Chain(boxes, Cursor(0, 0), w, pages)
    requires forall p | p in pages :: p.Page?
    requires pages[|pages| - 1].next == None
    ensures Together(pages) == Ahead(boxes, Cursor(0, 0), w)
  {
    PagesMakeOneScan(boxes, Cursor(0, 0), w, pages);
    LastCursor(boxes, Cursor(0, 0), pages);
  }

  lemma {:induction false} LastCursor(boxes: seq<Box>, c: Cursor, pages: seq<Page>)
    requires pages != [] && forall p | p in pages :: p.Page?
    ensures After(boxes, c, pages) == CursorOf(boxes, pages[|pages| - 1])
    decreases |pages|
  {
    if |pages| > 1 { LastCursor(boxes, CursorOf(boxes, pages[0]), pages[1..]); }
  }

  /** Pages that each ran at least once are fewer than the messages and mailboxes there were to pass. */
  lemma {:induction false} PagesEnd(boxes: seq<Box>, c: Cursor, w: Window, pages: seq<Page>)
    requires BoxesOk(boxes) && Chain(boxes, c, w, pages) && forall p | p in pages :: p.Page?
    requires Advancing(boxes, c, pages)
    ensures |pages| <= Work(boxes, c)
    decreases |pages|
  {
    if pages != [] { PagesEnd(boxes, CursorOf(boxes, pages[0]), w, pages[1..]); }
  }

  ghost predicate Advancing(boxes: seq<Box>, c: Cursor, pages: seq<Page>)
    requires forall p | p in pages :: p.Page?
    decreases |pages|
  {
    pages != [] ==>
      && Work(boxes, CursorOf(boxes, pages[0])) < Work(boxes, c)
      && Advancing(boxes, CursorOf(boxes, pages[0]), pages[1..])
  }
}
