/**
 * The bill file a visitor may attach, and the server's upload allow-list.
 */
module Uploads {
  import opened Wrappers

  /** An uploaded file as the form and the upload middleware see it: its name, MIME type and size in bytes. */
  datatype BillFile = BillFile(name: string, mimeType: string, size: nat)

  /** The MIME types the upload filter lets through. */
  const AllowedMimes: seq<string> := ["application/pdf", "image/jpeg", "image/png", "image/jpg"]

  const RejectMessage: string := "Only PDF and image files are allowed"

  /**
   * The upload filter's verdict: accept the file, or fail the upload with an
   * error. Only the MIME type is consulted, never the name.
   */
  function FileFilter(file: BillFile): (r: Result<bool, string>)
    ensures r.Success? <==> file.mimeType in AllowedMimes
    ensures r.Success? ==> r.value
    ensures r.Failure? ==> r.error == RejectMessage
  {
    if file.mimeType in AllowedMimes then Success(true) else Failure(RejectMessage)
  }

  /** Exactly the four listed types are accepted; PDFs and images under any other label are refused. */
  lemma AllowList(file: BillFile)
    ensures FileFilter(file).Success? <==>
      file.mimeType == "application/pdf" || file.mimeType == "image/jpeg"
      || file.mimeType == "image/png" || file.mimeType == "image/jpg"
    ensures FileFilter(BillFile(file.name, "image/gif", file.size)).Failure?
    ensures FileFilter(BillFile(file.name, "application/x-pdf", file.size)).Failure?
  {
  }
}
