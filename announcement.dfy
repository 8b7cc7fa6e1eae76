/**
 * The fields the handler reads from a new `duyurular/{duyuruId}` document,
 * their defaults and coercions, and the shortening of the message for the
 * notification body.
 */
module Announcement {
  import opened Directory

  const DefaultTitle: string := "Yeni duyuru"
  const DefaultMessage: string := "Yeni bir duyuru yayınlandı."

  /** Longest message sent unshortened, and the suffix a shortened one gets. */
  const BodyLimit: nat := 120
  const Ellipsis: string := "..."

  /**
   * The stored document as read: each field may be absent; `targetUids` and
   * `targetClasses` are `None` when absent or not an array.
   */
  datatype Document = Document(
    baslik: Option<string>,
    mesaj: Option<string>,
    targetAll: bool,
    targetUids: Option<seq<string>>,
    targetClasses: Option<seq<string>>)

  /** The fields after defaulting, as the rest of the handler uses them. */
  datatype Announcement = Announcement(
    baslik: string,
    mesaj: string,
    targetAll: bool,
    targetUids: seq<string>,
    targetClasses: seq<string>)

  /** `field || fallback` on a string field: absent and empty both fall back. */
  function OrDefault(field: Option<string>, fallback: string): (r: string)
    requires fallback != ""
    ensures r != ""
    ensures field.Some? && field.value != "" ==> r == field.value
    ensures field.None? || field.value == "" ==> r == fallback
  {
    match field
    case Some(v) => if v != "" then v else fallback
    case None => fallback
  }

  /** `Array.isArray(x) ? x : []`. */
  function ArrayOrEmpty(field: Option<seq<string>>): seq<string>
  {
    match field
    case Some(vs) => vs
    case None => []
  }

  /**
   * The field extraction at the top of the handler; `snap.data() || {}`
   * turns a missing document into one with every field absent.
   */
  function Parse(data: Option<Document>): (a: Announcement)
    ensures a.baslik != "" && a.mesaj != ""
    ensures data.None? ==> a == Announcement(DefaultTitle, DefaultMessage, false, [], [])
    ensures data.Some? ==>
      && a.baslik == OrDefault(data.value.baslik, DefaultTitle)
      && a.mesaj == OrDefault(data.value.mesaj, DefaultMessage)
      && a.targetAll == data.value.targetAll
      && (data.value.targetUids.Some? ==> a.targetUids == data.value.targetUids.value)
      && (data.value.targetUids.None? ==> a.targetUids == [])
      && (data.value.targetClasses.Some? ==> a.targetClasses == data.value.targetClasses.value)
      && (data.value.targetClasses.None? ==> a.targetClasses == [])
  {
    var d := match data
      case Some(d) => d
      case None => Document(None, None, false, None, None);
    Announcement(
      OrDefault(d.baslik, DefaultTitle),
      OrDefault(d.mesaj, DefaultMessage),
      d.targetAll,
      ArrayOrEmpty(d.targetUids),
      ArrayOrEmpty(d.targetClasses))
  }

  /** Defaulting never overrides a value the document provides. */
  lemma ParseKeepsProvidedFields(a: Announcement)
    requires a.baslik != "" && a.mesaj != ""
    ensures Parse(Some(Document(Some(a.baslik), Some(a.mesaj), a.targetAll,
                                Some(a.targetUids), Some(a.targetClasses)))) == a
  {
  }

  /**
   * `mesaj.length > 120 ? mesaj.substring(0, 120) + "..." : mesaj`: a short
   * message is sent as it is, a long one as its first 120 characters and
   * the ellipsis.
   */
  function NotificationBody(mesaj: string): (r: string)
    ensures |mesaj| <= BodyLimit ==> r == mesaj
    ensures |mesaj| > BodyLimit ==>
      && |r| == BodyLimit + |Ellipsis|
      && r[..BodyLimit] == mesaj[..BodyLimit]
      && r[BodyLimit..] == Ellipsis
    ensures |r| <= BodyLimit + |Ellipsis|
    ensures mesaj != "" ==> r != ""
  {
    if |mesaj| > BodyLimit then mesaj[..BodyLimit] + Ellipsis else mesaj
  }

  /** A 200-character message goes out as 120 characters and the ellipsis; a 50-character one unchanged. */
  lemma NotificationBodyExamples(long: string, short: string)
    requires |long| == 200 && |short| == 50
    ensures |NotificationBody(long)| == 123 && NotificationBody(long) == long[..120] + "..."
    ensures NotificationBody(short) == short
  {
  }
}
