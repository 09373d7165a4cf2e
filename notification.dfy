/** The wire record of a server notification and the domain record the client
    keeps, from src/types/Notification.ts. */
module NotificationTypes {

  /** The JSON object the server pushes. Field names are the wire keys. */
  datatype NotificationDTO = NotificationDTO(
    Timestamp: string,
    UserID: string,
    UserName: string,
    DocumentID: string,
    DocumentTitle: string)

  /** `new Date(text)`: the date is identified by the text it was built from;
      turning that text into a time value is the JavaScript engine's parser,
      which is not part of this model. */
  datatype JsDate = DateFrom(text: string)

  datatype UserRef = UserRef(id: string, name: string)

  datatype DocumentRef = DocumentRef(id: string, title: string)

  datatype Notification = Notification(
    id: string,
    timestamp: JsDate,
    user: UserRef,
    document: DocumentRef)

  /** `mapNotificationDTOToNotification`: a total record mapping. The id is the
      user id, the document id and the timestamp text, joined by hyphens, so
      each of the three can be read back at its offset. */
  function MapNotificationDTOToNotification(dto: NotificationDTO): (n: Notification)
    ensures |n.id| == |dto.UserID| + |dto.DocumentID| + |dto.Timestamp| + 2
    ensures n.id[..|dto.UserID|] == dto.UserID && n.id[|dto.UserID|] == '-'
    ensures var k := |dto.UserID| + 1;
      n.id[k..k + |dto.DocumentID|] == dto.DocumentID && n.id[k + |dto.DocumentID|] == '-'
    ensures n.id[|dto.UserID| + |dto.DocumentID| + 2..] == dto.Timestamp
    ensures n.user.id == dto.UserID && n.user.name == dto.UserName
    ensures n.document.id == dto.DocumentID && n.document.title == dto.DocumentTitle
  {
    Notification(
      dto.UserID + "-" + dto.DocumentID + "-" + dto.Timestamp,
      DateFrom(dto.Timestamp),
      UserRef(dto.UserID, dto.UserName),
      DocumentRef(dto.DocumentID, dto.DocumentTitle))
  }

  predicate HasNoHyphen(s: string)
  {
    '-' !in s
  }

  /** In `a + "-" + rest` with a hyphen-free `a`, the first hyphen is at |a|. */
  lemma FirstHyphenAt(a: string, rest: string)
    requires HasNoHyphen(a)
    ensures (a + "-" + rest)[|a|] == '-'
    ensures forall i :: 0 <= i < |a| ==> (a + "-" + rest)[i] != '-'
  {
    forall i | 0 <= i < |a| ensures (a + "-" + rest)[i] != '-' {
      assert (a + "-" + rest)[i] == a[i];
    }
  }

  /** Splitting at the first hyphen is unambiguous when the head has none. */
  lemma SplitAtHyphen(a: string, restA: string, b: string, restB: string)
    requires HasNoHyphen(a) && HasNoHyphen(b)
    requires a + "-" + restA == b + "-" + restB
    ensures a == b && restA == restB
  {
    var s := a + "-" + restA;
    FirstHyphenAt(a, restA);
    FirstHyphenAt(b, restB);
    assert |a| == |b|;
    assert a == s[..|a|] == b;
    assert restA == s[|a| + 1..] == restB;
  }

  /** The id is derived only from the three identifying fields: a redelivered
      message, or one that differs only in the user's name or the document's
      title, gets the same id. The date depends on the timestamp text alone. */
  lemma IdDependsOnlyOnKeyFields(a: NotificationDTO, b: NotificationDTO)
    ensures a.UserID == b.UserID && a.DocumentID == b.DocumentID && a.Timestamp == b.Timestamp ==>
      MapNotificationDTOToNotification(a).id == MapNotificationDTOToNotification(b).id
    ensures a.Timestamp == b.Timestamp ==>
      MapNotificationDTOToNotification(a).timestamp == MapNotificationDTOToNotification(b).timestamp
  {
  }

  /** Conversely, when user and document ids contain no hyphen, equal ids
      mean equal user id, document id and timestamp. */
  lemma IdDeterminesKeyFields(a: NotificationDTO, b: NotificationDTO)
    requires HasNoHyphen(a.UserID) && HasNoHyphen(b.UserID)
    requires HasNoHyphen(a.DocumentID) && HasNoHyphen(b.DocumentID)
    requires MapNotificationDTOToNotification(a).id == MapNotificationDTOToNotification(b).id
    ensures a.UserID == b.UserID && a.DocumentID == b.DocumentID && a.Timestamp == b.Timestamp
  {
    var ra := a.DocumentID + "-" + a.Timestamp;
    var rb := b.DocumentID + "-" + b.Timestamp;
    assert a.UserID + "-" + ra == MapNotificationDTOToNotification(a).id;
    assert b.UserID + "-" + rb == MapNotificationDTOToNotification(b).id;
    SplitAtHyphen(a.UserID, ra, b.UserID, rb);
    SplitAtHyphen(a.DocumentID, a.Timestamp, b.DocumentID, b.Timestamp);
  }

  /** Without that restriction the id is ambiguous: user "a-b" on document "c"
      and user "a" on document "b-c" at the same time get the same id. */
  lemma IdCollidesAcrossHyphens(t: string)
    ensures var x := NotificationDTO(t, "a-b", "", "c", "");
      var y := NotificationDTO(t, "a", "", "b-c", "");
      MapNotificationDTOToNotification(x).id == MapNotificationDTOToNotification(y).id
      && x.UserID != y.UserID
  {
    assert "a-b" + "-" + "c" == "a" + "-" + "b-c";
  }
}
