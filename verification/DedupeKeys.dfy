/** The printed form of the outbox dedupe keys, and why distinct keys print distinct strings. */
module DedupeKeys {
  import opened Tables
  import opened Text
  import opened Bookings

  function EventName(e: Event): (name: string)
    ensures ':' !in name && name != []
  {
    match e
    case Created => "created"
    case Started => "started"
    case CancelledByGuest => "cancelled_by_guest"
    case CancelledByHost => "cancelled_by_host"
    case ListingCancelled => "listing_cancelled"
    case Finished => "completed"
  }

  /**
   * How row ids, row numbers and instants print. Ids are UUIDs and the other two decimal numerals: none
   * contains a colon, and the word 'direct' is not a row number.
   */
  datatype Printer = Printer(id: nat -> string, row: nat -> string, instant: int -> string) {
    ghost predicate Valid()
    {
      && (forall n: nat :: ':' !in id(n)) && (forall m: nat, n: nat :: id(m) == id(n) ==> m == n)
      && (forall n: nat :: ':' !in row(n) && row(n) != "direct") && (forall m: nat, n: nat :: row(m) == row(n) ==> m == n)
      && (forall n: int :: ':' !in instant(n)) && (forall m: int, n: int :: instant(m) == instant(n) ==> m == n)
    }
  }

  /** The colon-separated parts of a key. */
  function Parts(p: Printer, key: Key): (parts: seq<string>)
    ensures parts != []
  {
    match key
    case PromotionAt(b, at) => ["booking.promote", p.id(b), p.instant(at)]
    case PromotionAgain(b, at, delivering) =>
      ["booking.promote", p.id(b), p.instant(at), "r" + if delivering.Some? then p.row(delivering.value) else "direct"]
    case NotificationTo(b, e, r) => ["notify.booking", p.id(b), EventName(e), p.id(r)]
    case ListingGone(b) => ["notify.booking", p.id(b), "listing_cancelled"]
  }

  /** The template literal that renders a key. */
  function Rendered(p: Printer, key: Key): string
  {
    Join(Parts(p, key), ':')
  }

  lemma PartsPrintable(p: Printer, key: Key)
    requires p.Valid()
    ensures forall i :: 0 <= i < |Parts(p, key)| ==> ':' !in Parts(p, key)[i]
  {
  }

  lemma PartsDiffer(p: Printer, key: Key, key': Key)
    requires p.Valid() && Parts(p, key) == Parts(p, key')
    ensures key == key'
  {
    var parts, parts' := Parts(p, key), Parts(p, key');
    assert parts[0] == parts'[0] && parts[1] == parts'[1] && parts[2] == parts'[2];
    assert "booking.promote"[0] != "notify.booking"[0];
    match key
    case PromotionAgain(_, _, delivering) =>
      assert parts[3] == parts'[3];
      assert parts[3][1..] == parts'[3][1..];
      var tail := if delivering.Some? then p.row(delivering.value) else "direct";
      assert ("r" + tail)[1..] == tail;
      var tail' := if key'.delivering.Some? then p.row(key'.delivering.value) else "direct";
      assert ("r" + tail')[1..] == tail';
    case NotificationTo(_, e, _) =>
      assert parts[3] == parts'[3];
    case _ =>
  }

  /** Two keys that print the same are the same: a dedupe conflict is never a collision of unrelated keys. */
  lemma RenderedIsInjective(p: Printer, key: Key, key': Key)
    requires p.Valid() && Rendered(p, key) == Rendered(p, key')
    ensures key == key'
  {
    PartsPrintable(p, key);
    PartsPrintable(p, key');
    SplitOfJoin(Parts(p, key), ':');
    SplitOfJoin(Parts(p, key'), ':');
    PartsDiffer(p, key, key');
  }
}
