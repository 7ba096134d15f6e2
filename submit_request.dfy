/**
 * The support-request page (`SubmitRequestPage`): a form whose submit
 * uploads the optional attachment, inserts the request and clears the
 * form, and a paginated history of the user's own requests.
 */
module SubmitRequest {
  import opened Wrappers
  import opened Js
  import opened Lists
  import opened Domain

  const DefaultRequestType := "probleme_technique"
  const ItemsPerPage := 5
  const SuccessMessage := "Requête envoyée avec succès !"
  const UploadErrorPrefix := "Erreur lors de l'upload de la pièce jointe: "
  const InsertErrorPrefix := "Erreur lors de la création de la requête: "

  /** `!subject || !description`: the submit button is disabled. */
  predicate IsFormInvalid(subject: string, description: string) {
    !Truthy(Str(subject)) || !Truthy(Str(description))
  }

  /** The button is disabled exactly when the subject or the description is empty. */
  lemma FormInvalidExact(subject: string, description: string)
    ensures IsFormInvalid(subject, description) <==> subject == "" || description == ""
  {
  }

  /** The row inserted into `requests`. */
  datatype NewRequest = NewRequest(demandeurId: string, requestType: string, sujet: string,
                                   description: string, attachmentUrl: Option<string>)

  /** The attachment column: a view button carrying the URL, or '-'. */
  datatype AttachmentCell = ViewButton(url: string) | NoAttachment

  function AttachmentCellOf(url: Option<string>): (r: AttachmentCell)
    ensures r == NoAttachment <==> !Present(url)
    ensures r.ViewButton? ==> r.url == url.value
  {
    if Present(url) then ViewButton(url.value) else NoAttachment
  }

  /** The response column: the administrator's answer, or '-'. */
  function ResponseCell(reponse: Option<string>): (r: string)
    ensures r != ""
    ensures r == "-" || reponse == Some(r)
    ensures Present(reponse) ==> r == reponse.value
  {
    if Present(reponse) then reponse.value else "-"
  }

  /** The cells of one history row; the formatted date is left out. */
  datatype Row = Row(id: string, sujet: string, status: string, attachment: AttachmentCell, response: string)

  function RowOf(r: Request): Row {
    Row(r.id, r.sujet, r.status, AttachmentCellOf(r.attachmentUrl), ResponseCell(r.reponse))
  }

  function Rows(rs: seq<Request>): (r: seq<Row>)
    ensures |r| == |rs| && forall i :: 0 <= i < |rs| ==> r[i] == RowOf(rs[i])
  {
    if rs == [] then [] else [RowOf(rs[0])] + Rows(rs[1..])
  }

  /** `historyRows` of page `page` (`currentPage`). */
  function HistoryRows(requests: seq<Request>, page: int): seq<Row> {
    Rows(Page(requests, page, ItemsPerPage))
  }

  /** Page p lists, in order, requests (p-1)*5 up to p*5, at most five of them. */
  lemma HistoryRowsPage(requests: seq<Request>, page: int)
    requires page >= 1
    ensures var r := HistoryRows(requests, page);
      var start := (page - 1) * ItemsPerPage;
      |r| <= ItemsPerPage
      && (forall j :: 0 <= j < |r| ==> start + j < |requests| && r[j] == RowOf(requests[start + j]))
      && (r == [] <==> page > PageCount(|requests|, ItemsPerPage))
  {
    var shown := Page(requests, page, ItemsPerPage);
    PageSpec(requests, page, ItemsPerPage);
    if shown != [] {
      RowsOfWindow(shown, requests, (page - 1) * ItemsPerPage);
    }
  }

  /** The rows of a window of the history are the rows of the requests it holds. */
  lemma {:induction false} RowsOfWindow(shown: seq<Request>, requests: seq<Request>, start: nat)
    requires start + |shown| <= |requests|
    requires forall j :: 0 <= j < |shown| ==> shown[j] == requests[start + j]
    ensures forall j :: 0 <= j < |Rows(shown)| ==> Rows(shown)[j] == RowOf(requests[start + j])
  {
    forall j | 0 <= j < |Rows(shown)| ensures Rows(shown)[j] == RowOf(requests[start + j]) {
      assert Rows(shown)[j] == RowOf(shown[j]);
    }
  }

  /** `handleTableClick`: a view-attachment button with a non-empty URL dispatches `viewProof`. */
  function TableClick(onViewAttachment: bool, hasHandler: bool, url: Option<string>): (r: Option<(string, string)>)
    ensures r.Some? <==> onViewAttachment && hasHandler && Present(url)
    ensures r.Some? ==> r.value == ("viewProof", url.value)
  {
    if onViewAttachment && hasHandler && Present(url) then Some(("viewProof", url.value)) else None
  }

  class RequestPage {
    const userId: string
    var requestType: string
    var subject: string
    var description: string
    var hasAttachment: bool
    var currentPage: int

    constructor (userId: string)
      ensures this.userId == userId && requestType == DefaultRequestType
      ensures subject == "" && description == "" && !hasAttachment && currentPage == 1
    {
      this.userId := userId;
      requestType, subject, description, hasAttachment, currentPage := DefaultRequestType, "", "", false, 1;
    }

    method TypeChange(t: string)
      modifies this
      ensures requestType == t && subject == old(subject) && description == old(description)
      ensures hasAttachment == old(hasAttachment) && currentPage == old(currentPage)
    {
      requestType := t;
    }

    method SubjectChange(t: string)
      modifies this
      ensures subject == t && requestType == old(requestType) && description == old(description)
      ensures hasAttachment == old(hasAttachment) && currentPage == old(currentPage)
    {
      subject := t;
    }

    method DescriptionChange(t: string)
      modifies this
      ensures description == t && requestType == old(requestType) && subject == old(subject)
      ensures hasAttachment == old(hasAttachment) && currentPage == old(currentPage)
    {
      description := t;
    }

    method AttachmentChange(chosen: bool)
      modifies this
      ensures hasAttachment == chosen && requestType == old(requestType) && subject == old(subject)
      ensures description == old(description) && currentPage == old(currentPage)
    {
      hasAttachment := chosen;
    }

    method PageChange(p: int)
      modifies this
      ensures currentPage == p && requestType == old(requestType) && subject == old(subject)
      ensures description == old(description) && hasAttachment == old(hasAttachment)
    {
      currentPage := p;
    }

    /**
     * `handleSubmit`. `upload` is the storage outcome for the chosen
     * attachment and `insertError` the insert's error, if any. A failed
     * upload alerts and inserts nothing; otherwise the request goes out with
     * the attachment's URL or null, and only a successful insert clears the
     * subject, the description and the attachment (the type is kept).
     */
    method Submit(upload: Upload, insertError: Option<string>) returns (inserted: Option<NewRequest>, alert: string)
      requires hasAttachment <==> !upload.NoFile?
      modifies this
      ensures upload.UploadFailed? ==>
        inserted.None? && alert == UploadErrorPrefix + upload.message
        && subject == old(subject) && description == old(description) && hasAttachment == old(hasAttachment)
      ensures !upload.UploadFailed? ==>
        inserted == Some(NewRequest(userId, old(requestType), old(subject), old(description),
                                    if upload.Uploaded? then Some(upload.publicUrl) else None))
      ensures !upload.UploadFailed? && insertError.Some? ==>
        alert == InsertErrorPrefix + insertError.value
        && subject == old(subject) && description == old(description) && hasAttachment == old(hasAttachment)
      ensures !upload.UploadFailed? && insertError.None? ==>
        alert == SuccessMessage && subject == "" && description == "" && !hasAttachment
        && IsFormInvalid(subject, description)
      ensures requestType == old(requestType) && currentPage == old(currentPage)
    {
      var url: Option<string> := None;
      match upload {
        case UploadFailed(message) =>
          return None, UploadErrorPrefix + message;
        case Uploaded(publicUrl) =>
          url := Some(publicUrl);
        case NoFile =>
      }
      inserted := Some(NewRequest(userId, requestType, subject, description, url));
      if insertError.Some? {
        alert := InsertErrorPrefix + insertError.value;
      } else {
        alert := SuccessMessage;
        subject, description, hasAttachment := "", "", false;
      }
    }
  }
}
