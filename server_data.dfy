/** The documents the servers keep in their store: events as loosely typed dictionaries, and the
    session record that holds them. */
module ServerData {
  import opened Wrappers

  /** An HTTP error response: its status code and detail text. */
  datatype ApiError = ApiError(status: nat, detail: string)

  /** The value under an event's "event_name" key: missing, a string, null, or any other JSON
      value (carried as the text `str()` renders for it). */
  datatype NameField = Absent | NameStr(s: string) | NameNull | NameOther(text: string)

  /** A stored event dictionary; only its name matters to the code modelled here. */
  datatype RawEvent = RawEvent(eventName: NameField)

  /** An element of a stored `event_history`: a dictionary, or anything else. */
  datatype StoredItem = DictItem(event: RawEvent) | NonDict

  /** A session document (the vector, decision and metrics fields are not modelled). A stored
      session may lack its `event_history` key (None). */
  datatype SessionDoc = SessionDoc(
    sessionId: string,
    businessId: Option<string>,
    userId: string,
    language: string,
    eventHistory: Option<seq<StoredItem>>,
    identityState: Option<string>,
    identityConfidence: real,
    lastVariantShown: Option<string>,
    auditLog: seq<string>)

  /** A user document: the stored session, when there is one. */
  datatype UserDoc = UserDoc(lastSession: Option<SessionDoc>)

  /** The text the name scan reads: `str()` of the stored value, "" when the key is missing. */
  function NameText(f: NameField): string
  {
    match f
    case Absent => ""
    case NameStr(s) => s
    case NameNull => "None"
    case NameOther(t) => t
  }

  /** A new session document. */
  function NewSession(businessId: Option<string>, userId: string, uuidHex: string): SessionDoc
  {
    SessionDoc(NewSessionId(uuidHex), businessId, userId, "en", Some([]), None, 0.0, None, [])
  }

  /** A list of events as stored dictionaries. */
  function AsItems(es: seq<RawEvent>): (r: seq<StoredItem>)
    ensures |r| == |es| && forall i :: 0 <= i < |es| ==> r[i] == DictItem(es[i])
  {
    seq(|es|, i requires 0 <= i < |es| => DictItem(es[i]))
  }

  /** The dictionaries of a history, in order. */
  function DictsOnly(items: seq<StoredItem>): (r: seq<RawEvent>)
    ensures |r| <= |items|
    ensures forall e :: e in r <==> DictItem(e) in items
  {
    if items == [] then []
    else
      var last := items[|items| - 1];
      DictsOnly(items[..|items| - 1]) + (if last.DictItem? then [last.event] else [])
  }

  /** The session id a new session gets from a fresh hexadecimal uuid: its first 12 digits. */
  function NewSessionId(uuidHex: string): string
  {
    "session_" + (if |uuidHex| <= 12 then uuidHex else uuidHex[..12])
  }

  /** The `clean_history` loop: keep the dictionary entries, in order (the conversion of date
      values to text is not modelled). */
  method CleanHistory(items: seq<StoredItem>) returns (clean: seq<RawEvent>)
    ensures clean == DictsOnly(items)
  {
    clean := [];
    for i := 0 to |items|
      invariant clean == DictsOnly(items[..i])
    {
      assert items[..i + 1][..i] == items[..i];
      if items[i].DictItem? {
        clean := clean + [items[i].event];
      }
    }
    assert items[..|items|] == items;
  }

  /** Cleaning works piecewise, so the kept entries stay in their original order. */
  lemma {:induction false} DictsOnlyAppend(a: seq<StoredItem>, b: seq<StoredItem>)
    ensures DictsOnly(a + b) == DictsOnly(a) + DictsOnly(b)
    decreases |b|
  {
    if b != [] {
      var n := |b| - 1;
      assert (a + b)[..|a + b| - 1] == a + b[..n];
      DictsOnlyAppend(a, b[..n]);
    } else {
      assert a + b == a;
    }
  }

  /** A history of dictionaries only is kept whole. */
  lemma {:induction false} DictsOnlyKeepsDicts(items: seq<StoredItem>)
    requires forall i :: 0 <= i < |items| ==> items[i].DictItem?
    ensures |DictsOnly(items)| == |items|
    ensures forall i :: 0 <= i < |items| ==> DictsOnly(items)[i] == items[i].event
  {
    if items != [] {
      DictsOnlyKeepsDicts(items[..|items| - 1]);
    }
  }

  /** Events stored as dictionaries come back unchanged when cleaned. */
  lemma CleanAfterStore(es: seq<RawEvent>)
    ensures DictsOnly(AsItems(es)) == es
  {
    DictsOnlyKeepsDicts(AsItems(es));
  }
}
