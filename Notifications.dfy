/**
 * The push-notification helpers (fcmUtils): a notification counter kept as
 * text under one storage key, read with parseInt and written with
 * toString, with an update event emitted to the foreground screens; the
 * default title and body of a displayed message; and the permission
 * check. Storage is a map, failures are parameters, and the emitted events
 * and displayed notifications are recorded in order.
 */
module Notifications {
  import opened JsText

  const COUNT_KEY: string := "notificationCount"
  const DEFAULT_TITLE: string := "새 알림"
  const DEFAULT_BODY: string := "새 메시지가 있습니다"

  /** Which storage call of an operation rejects, if any. */
  datatype StorageFault = NoFault | ReadFails | WriteFails

  /** `messaging.AuthorizationStatus` */
  datatype AuthorizationStatus = NotDetermined | Denied | Authorized | Provisional

  /** The part of a remote message the display reads; absent fields are None. */
  datatype RemoteMessage = RemoteMessage(notification: Option<NotificationPart>)
  datatype NotificationPart = NotificationPart(title: Option<string>, body: Option<string>)

  /** What is handed to the notification display. */
  datatype Shown = Shown(title: string, body: string)

  /** `getItem(key) || '0'`: a missing key and the empty text both read as "0". */
  function CountText(storage: map<string, string>): string {
    if COUNT_KEY in storage && storage[COUNT_KEY] != "" then storage[COUNT_KEY] else "0"
  }

  /** The count as getNotificationCount and incrementNotificationCount parse it. */
  function StoredCount(storage: map<string, string>): JsNumber {
    ParseInt(CountText(storage))
  }

  /** `n + 1` on a JavaScript number. */
  function Succ(v: JsNumber): (r: JsNumber)
    ensures v.Num? <==> r.Num?
    ensures v.Num? ==> r.value == v.value + 1
  {
    match v
    case Num(n) => Num(n + 1)
    case NaN => NaN
  }

  /** The storage after a successful increment. */
  function Incremented(storage: map<string, string>): map<string, string> {
    storage[COUNT_KEY := NumberToString(Succ(StoredCount(storage)))]
  }

  /** `requestUserPermission` once the status is known. */
  function PermissionGranted(status: AuthorizationStatus): bool {
    status == Authorized || status == Provisional
  }

  /** `x || fallback` for an optional text field. */
  function OrDefault(field: Option<string>, fallback: string): (r: string)
    ensures field.Some? && field.value != "" ==> r == field.value
    ensures field.None? || field.value == "" ==> r == fallback
  {
    if field.Some? && field.value != "" then field.value else fallback
  }

  /** The title and body displayNotification shows. */
  function Display(m: RemoteMessage): Shown {
    var title := if m.notification.Some? then m.notification.value.title else None;
    var body := if m.notification.Some? then m.notification.value.body else None;
    Shown(OrDefault(title, DEFAULT_TITLE), OrDefault(body, DEFAULT_BODY))
  }

  /** Only the authorized and provisional statuses count as granted. */
  lemma PermissionIff(status: AuthorizationStatus)
    ensures PermissionGranted(status) <==> status.Authorized? || status.Provisional?
    ensures !PermissionGranted(NotDetermined) && !PermissionGranted(Denied)
  {
  }

  /** A missing title or body, or an empty one, is replaced by the default text. */
  lemma DisplayDefaults(m: RemoteMessage)
    ensures m.notification.None? ==> Display(m) == Shown("새 알림", "새 메시지가 있습니다")
    ensures m.notification.Some? ==>
      Display(m).title == (match m.notification.value.title
        case Some(t) => if t == "" then "새 알림" else t
        case None => "새 알림")
    ensures m.notification.Some? ==>
      Display(m).body == (match m.notification.value.body
        case Some(b) => if b == "" then "새 메시지가 있습니다" else b
        case None => "새 메시지가 있습니다")
    ensures Display(m).title != "" && Display(m).body != ""
  {
  }

  /** Nothing stored reads as zero. */
  lemma MissingCountIsZero(storage: map<string, string>)
    requires COUNT_KEY !in storage
    ensures StoredCount(storage) == Num(0)
  {
    IntToStringRoundTrip(0);
  }

  /** A count written with toString is read back by parseInt. */
  lemma CountRoundTrip(storage: map<string, string>, n: int)
    ensures StoredCount(storage[COUNT_KEY := IntToString(n)]) == Num(n)
  {
    IntToStringRoundTrip(n);
  }

  /** Each increment stores one more than was read. */
  lemma IncrementAddsOne(storage: map<string, string>, n: int)
    requires StoredCount(storage) == Num(n)
    ensures StoredCount(Incremented(storage)) == Num(n + 1)
    ensures Incremented(storage)[COUNT_KEY] == IntToString(n + 1)
  {
    CountRoundTrip(storage, n + 1);
  }

  /** After a reset the count reads zero, and the next increment gives one. */
  lemma ResetThenIncrement(storage: map<string, string>)
    ensures StoredCount(storage[COUNT_KEY := "0"]) == Num(0)
    ensures StoredCount(Incremented(storage[COUNT_KEY := "0"])) == Num(1)
  {
    var reset := storage[COUNT_KEY := "0"];
    assert IntToString(0) == "0";
    assert StoredCount(reset) == Num(0) by { CountRoundTrip(storage, 0); }
    IncrementAddsOne(reset, 0);
  }

  /** The storage, the event emitter's calls and the notification display. */
  class NotificationCenter {
    var storage: map<string, string>
    var emitted: seq<JsNumber>
    var displayed: seq<Shown>

    constructor (storage: map<string, string>)
      ensures this.storage == storage && emitted == [] && displayed == []
    {
      this.storage := storage;
      emitted := [];
      displayed := [];
    }

    /**
     * incrementNotificationCount: store the count plus one and, unless in
     * background mode, emit it; a failing read or write stops the rest.
     */
    method IncrementNotificationCount(isBackground: bool, fault: StorageFault)
      modifies this`storage, this`emitted
      ensures storage == if fault.NoFault? then Incremented(old(storage)) else old(storage)
      ensures emitted == old(emitted) +
        (if fault.NoFault? && !isBackground then [Succ(StoredCount(old(storage)))] else [])
    {
      if fault == ReadFails {
        return;
      }
      var currentCount := CountText(storage);
      var newCount := Succ(ParseInt(currentCount));
      if fault == WriteFails {
        return;
      }
      storage := storage[COUNT_KEY := NumberToString(newCount)];
      if !isBackground {
        emitted := emitted + [newCount];
      }
    }

    /** getNotificationCount: the stored count, or 0 when the read fails. */
    method GetNotificationCount(readFails: bool) returns (count: JsNumber)
      ensures readFails ==> count == Num(0)
      ensures !readFails && COUNT_KEY !in storage ==> count == Num(0)
      ensures !readFails ==> count == StoredCount(storage)
    {
      if readFails {
        return Num(0);
      }
      var text := CountText(storage);
      count := ParseInt(text);
      if COUNT_KEY !in storage {
        MissingCountIsZero(storage);
      }
    }

    /** resetNotificationCount: store "0" and emit 0; a failing write stops both. */
    method ResetNotificationCount(writeFails: bool)
      modifies this`storage, this`emitted
      ensures storage == if writeFails then old(storage) else old(storage)[COUNT_KEY := "0"]
      ensures emitted == old(emitted) + (if writeFails then [] else [Num(0)])
    {
      if writeFails {
        return;
      }
      storage := storage[COUNT_KEY := "0"];
      emitted := emitted + [Num(0)];
    }

    /** displayNotification; a display that rejects adds nothing. */
    method DisplayNotification(m: RemoteMessage, displayFails: bool)
      modifies this`displayed
      ensures displayed == old(displayed) + (if displayFails then [] else [Display(m)])
    {
      if !displayFails {
        displayed := displayed + [Display(m)];
      }
    }

    /** handleForegroundMessage: display, then count with the event; a failed display stops it. */
    method HandleForegroundMessage(m: RemoteMessage, displayFails: bool, fault: StorageFault)
      modifies this`storage, this`emitted, this`displayed
      ensures displayed == old(displayed) + (if displayFails then [] else [Display(m)])
      ensures storage == if !displayFails && fault.NoFault? then Incremented(old(storage)) else old(storage)
      ensures emitted == old(emitted) +
        (if !displayFails && fault.NoFault? then [Succ(StoredCount(old(storage)))] else [])
    {
      DisplayNotification(m, displayFails);
      if displayFails {
        return;
      }
      IncrementNotificationCount(false, fault);
    }

    /** handleBackgroundMessage: display, then count without any event. */
    method HandleBackgroundMessage(m: RemoteMessage, displayFails: bool, fault: StorageFault)
      modifies this`storage, this`emitted, this`displayed
      ensures displayed == old(displayed) + (if displayFails then [] else [Display(m)])
      ensures storage == if !displayFails && fault.NoFault? then Incremented(old(storage)) else old(storage)
      ensures emitted == old(emitted)
    {
      DisplayNotification(m, displayFails);
      if displayFails {
        return;
      }
      IncrementNotificationCount(true, fault);
    }
  }
}
