/** The CSV upload component: the file-type check and the upload handler,
    which goes through its guards, sends the file, and hands the updated
    orders of a successful answer to the dashboard. */
module UploadCsv {
  import opened JsStrings
  import opened JsValues
  import opened Orders

  /** The chosen file: its name and its MIME type (`file.type`). */
  datatype UploadFile = UploadFile(name: string, mimeType: string)

  const AllowedTypes: seq<string> := [
    "text/csv",
    "application/vnd.openxmlformats-officedocument.spreadsheetml.sheet",
    "application/vnd.ms-excel"]

  /** `name.match(/\.(csv|xls|xlsx)$/i)`: the name ends in one of the three
      extensions, in any mix of upper and lower case. */
  predicate HasSpreadsheetExtension(name: string) {
    var lower := ToLowerAscii(name);
    EndsWith(lower, ".csv") || EndsWith(lower, ".xls") || EndsWith(lower, ".xlsx")
  }

  /** A file is accepted for its MIME type or for its name. */
  predicate Accepted(f: UploadFile) {
    f.mimeType in AllowedTypes || HasSpreadsheetExtension(f.name)
  }

  lemma LowerIdempotent(s: string)
    ensures ToLowerAscii(ToLowerAscii(s)) == ToLowerAscii(s)
  {
    var l := ToLowerAscii(s);
    forall i | 0 <= i < |l| ensures LowerChar(l[i]) == l[i] {
      assert l[i] == LowerChar(s[i]);
    }
  }

  /** The extension test ignores case: a name and its lower-case form agree. */
  lemma ExtensionIgnoresCase(name: string)
    ensures HasSpreadsheetExtension(ToLowerAscii(name)) == HasSpreadsheetExtension(name)
  {
    LowerIdempotent(name);
  }

  /** Lower-casing distributes over concatenation. */
  lemma LowerAppend(a: string, b: string)
    ensures ToLowerAscii(a + b) == ToLowerAscii(a) + ToLowerAscii(b)
  {
    assert forall i :: 0 <= i < |a + b| ==> ToLowerAscii(a + b)[i] == (ToLowerAscii(a) + ToLowerAscii(b))[i];
  }

  /** An upper-case `.XLSX` name is accepted whatever its MIME type. */
  lemma UpperCaseExtensionAccepted(base: string, mimeType: string)
    ensures Accepted(UploadFile(base + ".XLSX", mimeType))
  {
    LowerAppend(base, ".XLSX");
    assert ToLowerAscii(".XLSX") == ".xlsx";
    var lower := ToLowerAscii(base + ".XLSX");
    assert lower[|lower| - 5..] == ".xlsx";
  }

  /** A text file named `.csv.txt` is refused: the extension must end the name. */
  lemma InnerExtensionRefused(base: string)
    ensures !Accepted(UploadFile(base + ".csv.txt", "text/plain"))
  {
    LowerAppend(base, ".csv.txt");
    assert ToLowerAscii(".csv.txt") == ".csv.txt";
    var lower := ToLowerAscii(base + ".csv.txt");
    assert lower[|lower| - 1] == 't';
    assert "text/plain" != AllowedTypes[0] && "text/plain" != AllowedTypes[1] && "text/plain" != AllowedTypes[2];
  }

  /** The parsed answer of the upload endpoint: `res.ok`, `data.success`
      (`None` when absent) and `data.updatedOrders`. */
  datatype UploadAnswer = UploadAnswer(ok: bool, success: Option<bool>, updatedOrders: Option<seq<Order>>)

  /** `!(!res.ok || data.success === false)`: an absent `success` counts as
      success. A failed request or an unparsable body is `Failed`. */
  predicate UploadSucceeded(reply: Reply<UploadAnswer>) {
    reply.Ok? && reply.value.ok && reply.value.success != Some(false)
  }

  class Uploader {
    var file: Option<UploadFile>
    var uploading: bool

    constructor ()
      ensures file == None && !uploading
    {
      file := None;
      uploading := false;
    }

    /** `handleFileChange` */
    method ChooseFile(f: Option<UploadFile>)
      modifies this
      ensures file == f && uploading == old(uploading)
    {
      file := f;
    }

    /** The part of `handleUpload` before the request: without a file, or with
        a file of a refused type, nothing is sent and nothing changes;
        otherwise `uploading` is set and the request goes out. */
    method StartUpload() returns (sent: bool)
      modifies this
      ensures sent <==> old(file).Some? && Accepted(old(file).value)
      ensures sent ==> uploading
      ensures !sent ==> uploading == old(uploading)
      ensures file == old(file)
    {
      if file.None? {
        return false;
      }
      if !(file.value.mimeType in AllowedTypes) && !HasSpreadsheetExtension(file.value.name) {
        return false;
      }
      uploading := true;
      sent := true;
    }

    /** The part after the answer: a failure keeps the file; a success hands
        `updatedOrders` to `onUploaded` when present and clears the file.
        `uploading` is reset on every path. */
    method FinishUpload(reply: Reply<UploadAnswer>) returns (uploaded: Option<seq<Order>>)
      modifies this
      ensures !uploading
      ensures uploaded.Some? <==> UploadSucceeded(reply) && reply.value.updatedOrders.Some?
      ensures uploaded.Some? ==> uploaded.value == reply.value.updatedOrders.value
      ensures UploadSucceeded(reply) ==> file == None
      ensures !UploadSucceeded(reply) ==> file == old(file)
    {
      uploaded := None;
      if !UploadSucceeded(reply) {
        uploading := false;
        return;
      }
      if reply.value.updatedOrders.Some? {
        uploaded := reply.value.updatedOrders;
      }
      file := None;
      uploading := false;
    }

    /** `handleUpload` as a whole: the guards, then, when the request was
        sent, its answer. */
    method HandleUpload(reply: Reply<UploadAnswer>) returns (sent: bool, uploaded: Option<seq<Order>>)
      modifies this
      ensures sent <==> old(file).Some? && Accepted(old(file).value)
      ensures !sent ==> uploaded.None? && file == old(file) && uploading == old(uploading)
      ensures sent ==> !uploading
      ensures uploaded.Some? <==> sent && UploadSucceeded(reply) && reply.value.updatedOrders.Some?
      ensures uploaded.Some? ==> uploaded.value == reply.value.updatedOrders.value
      ensures sent && UploadSucceeded(reply) ==> file == None
      ensures sent && !UploadSucceeded(reply) ==> file == old(file)
    {
      sent := StartUpload();
      uploaded := None;
      if sent {
        uploaded := FinishUpload(reply);
      }
    }
  }
}
