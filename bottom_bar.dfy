/** The export and signing orchestration of the editor's bottom bar
    (src/components/panels/BottomBar.tsx): the plain download, the two-pass
    digital signature, and the signer-information detour. The handlers run
    to completion one at a time; the editor state they read is the snapshot
    their closure captured, passed in explicitly. pdf-lib's loading and
    saving, SHA-256, RSA signing and the clock are parameters. */
module BottomBar {
  import opened Common
  import opened Types
  import PdfExporter
  import DigitalSignature
  import DownloadPdf

  // ---------------------------------------------------------------------------
  // The outside world

  datatype Toast = Toast(message: string, isError: bool)

  /** A file handed to the browser: its bytes and its download name. */
  datatype Download = Download(bytes: seq<byte>, filename: string)

  /** The arguments of one call of exportSignedPdf. */
  datatype ExportRequest = ExportRequest(
    original: seq<byte>,
    annotations: seq<Annotation>,
    pageDimensions: seq<PageDimensions>,
    watermark: WatermarkConfig,
    headerFooter: HeaderFooterConfig,
    totalPages: int,
    digitalSign: Option<PdfExporter.DigitalSignInfo>)

  /** What the handlers call on: PDFDocument.load (None when it throws,
      otherwise the sizes of the loaded pages), pdfDoc.save (None when it
      throws), the drawing environment of the export, crypto.subtle's
      SHA-256, the certificate generator's randomness and clock, signData,
      and `new Date().toISOString()` at the time of signing. Each call of
      exportSignedPdf is `ExportBytes` over these. */
  datatype SignIo = SignIo(
    load: seq<byte> -> Option<seq<PageDimensions>>,
    save: PdfExporter.ExportResult -> Option<seq<byte>>,
    exportEnv: PdfExporter.ExportEnv,
    sha256: seq<byte> -> DigitalSignature.Digest,
    cert: DigitalSignature.CertificateEnv,
    signData: (string, string) -> string,
    now: string)

  /** The certificate generator's clock readings are calendar dates. */
  predicate ValidClock(io: SignIo)
  {
    DigitalSignature.ValidDate(io.cert.clock1) && DigitalSignature.ValidDate(io.cert.clock2)
  }

  /** Everything a handler leaves behind outside the bar: the exports it
      requested, the editor actions it dispatched, the downloads and the
      toasts, each in order. */
  datatype Effects = Effects(
    exports: seq<ExportRequest>,
    dispatched: seq<EditorAction>,
    downloads: seq<Download>,
    toasts: seq<Toast>)
  {
    function Then(next: Effects): Effects
    {
      Effects(exports + next.exports, dispatched + next.dispatched,
              downloads + next.downloads, toasts + next.toasts)
    }
  }

  const NoEffects := Effects([], [], [], [])

  lemma ThenAssociative(a: Effects, b: Effects, c: Effects)
    ensures a.Then(b).Then(c) == a.Then(b.Then(c))
  {
    assert (a.exports + b.exports) + c.exports == a.exports + (b.exports + c.exports);
    assert (a.dispatched + b.dispatched) + c.dispatched == a.dispatched + (b.dispatched + c.dispatched);
    assert (a.downloads + b.downloads) + c.downloads == a.downloads + (b.downloads + c.downloads);
    assert (a.toasts + b.toasts) + c.toasts == a.toasts + (b.toasts + c.toasts);
  }

  lemma ThenNothing(e: Effects)
    ensures e.Then(NoEffects) == e
  {
    assert e.exports + [] == e.exports && e.dispatched + [] == e.dispatched;
    assert e.downloads + [] == e.downloads && e.toasts + [] == e.toasts;
  }

  // ---------------------------------------------------------------------------
  // Exporting

  /** The export the handlers request from the state they captured. */
  function Request(pdfBytes: seq<byte>, s: EditorState, sign: Option<PdfExporter.DigitalSignInfo>): ExportRequest
  {
    ExportRequest(pdfBytes, s.annotations, s.pageDimensions, s.watermark, s.headerFooter,
                  s.totalPages, sign)
  }

  /** exportSignedPdf end to end: load the original, draw the plan, save. */
  function ExportBytes(req: ExportRequest, io: SignIo): (r: Result<seq<byte>>)
    ensures io.load(req.original).None? ==> r.Err?
    ensures r.Ok? ==> exists pages :: (io.load(req.original) == Some(pages)
      && io.save(PdfExporter.ExportPlan(PdfExporter.ExportInput(pages, req.annotations,
           req.pageDimensions, req.watermark, req.headerFooter, req.totalPages, req.digitalSign),
           io.exportEnv)) == Some(r.value))
  {
    match io.load(req.original)
    case None => Err("PDFDocument.load failed")
    case Some(pages) =>
      var plan := PdfExporter.ExportPlan(
        PdfExporter.ExportInput(pages, req.annotations, req.pageDimensions, req.watermark,
                                req.headerFooter, req.totalPages, req.digitalSign),
        io.exportEnv);
      match io.save(plan)
      case None => Err("pdfDoc.save failed")
      case Some(bytes) => Ok(bytes)
  }

  /** The steps of performDigitalSign between the two exports: generate
      the certificate, hash the first export's bytes, sign the hash, and
      build the entry to dispatch and the second export's request. */
  method PrepareSecondPass(pdfBytes: seq<byte>, s: EditorState, name: string, email: string,
                           firstBytes: seq<byte>, io: SignIo)
    returns (record: EditorAction, second: ExportRequest)
    requires ValidClock(io)
    ensures record == SignedRecord(name, email, firstBytes, io)
    ensures second == SecondPassRequest(pdfBytes, s, name, email, firstBytes, io)
  {
    var cert, _ := DigitalSignature.GenerateSelfSignedCertificate(SignerCertificateInfo(name, email), io.cert);
    var hash := DigitalSignature.ComputeDocumentHash(firstBytes, io.sha256);
    var signature := io.signData(hash, cert.privateKey);
    record := AddAuditEntry("Digitally Signed", SignedAuditDetails(cert.fingerprint, hash, name));
    second := Request(pdfBytes, s, Some(SecondPassInfo(s, name, email, hash, cert.fingerprint, signature, io.now)));
  }

  /** exportSignedPdf step by step: load the original, draw the export
      plan, save. A load or save that throws ends it with an error. */
  method RunExport(req: ExportRequest, io: SignIo) returns (r: Result<seq<byte>>)
    ensures r == ExportBytes(req, io)
  {
    var loaded := io.load(req.original);
    if loaded.None? {
      return Err("PDFDocument.load failed");
    }
    var input := PdfExporter.ExportInput(loaded.value, req.annotations, req.pageDimensions,
      req.watermark, req.headerFooter, req.totalPages, req.digitalSign);
    var plan := PdfExporter.ExportSignedPdf(input, io.exportEnv);
    var saved := io.save(plan);
    if saved.None? {
      return Err("pdfDoc.save failed");
    }
    r := Ok(saved.value);
  }

  // ---------------------------------------------------------------------------
  // What each handler does, as a value

  const DownloadedToast := Toast("PDF downloaded successfully!", false)
  const DownloadFailedToast := Toast("Failed to export PDF", true)
  const SignedToast := Toast("Digitally signed PDF downloaded!", false)
  const SignFailedToast := Toast("Digital signing failed", true)

  /** handleDownload: one export without signing information; on success a
      download, then the 'PDF Downloaded' audit entry and a toast; on
      failure only the error toast. */
  function DownloadEffects(pdfBytes: Option<seq<byte>>, filename: string, s: EditorState, io: SignIo): Effects
  {
    if pdfBytes.None? then NoEffects
    else
      var req := Request(pdfBytes.value, s, None);
      match ExportBytes(req, io)
      case Err(_) => Effects([req], [], [], [DownloadFailedToast])
      case Ok(bytes) =>
        Effects([req],
                 [AddAuditEntry("PDF Downloaded", NatToString(|s.annotations|) + " annotations")],
                 [Download(bytes, DownloadPdf.DownloadName(filename))],
                 [DownloadedToast])
  }

  /** `signerEmail || 'signer@local'`: the certificate never gets an empty
      email. */
  function CertificateEmail(email: string): (r: string)
    ensures r != ""
    ensures email != "" ==> r == email
  {
    if email == "" then "signer@local" else email
  }

  function SignerCertificateInfo(name: string, email: string): DigitalSignature.CertificateInfo
  {
    DigitalSignature.CertificateInfo(name, CertificateEmail(email), None, None)
  }

  /** The details of the 'Digitally Signed' entry dispatched to the editor:
      the first 23 characters of the fingerprint and the first 16 of the
      hash. */
  function SignedAuditDetails(fingerprint: string, hash: string, name: string): string
  {
    "Certificate: " + Take(fingerprint, 23) + "... | SHA-256: " + Take(hash, 16)
      + "... | Signer: " + name
  }

  /** The signing information of the second export: the captured audit log
      with one 'Digitally Signed' entry of its own at the tail, the raw
      signer email, the hash of the first pass and the full fingerprint. */
  function SecondPassInfo(s: EditorState, name: string, email: string, hash: string,
                          fingerprint: string, signature: string, now: string): PdfExporter.DigitalSignInfo
  {
    PdfExporter.DigitalSignInfo(
      s.auditLog + [AuditEntry("Digitally Signed", now,
                               "Certificate: " + fingerprint + " | Signature: " + Take(signature, 20) + "...")],
      name, email, hash, fingerprint)
  }

  /** The certificate performDigitalSign generates for the signer. */
  function SignerCertificate(name: string, email: string, io: SignIo): DigitalSignature.GeneratedCertificate
    requires ValidClock(io)
  {
    DigitalSignature.SelfSignedCertificate(SignerCertificateInfo(name, email), io.cert)
  }

  /** The second export, made from the first export's bytes: their hash,
      the certificate and the signature of the hash. */
  function SecondPassRequest(pdfBytes: seq<byte>, s: EditorState, name: string, email: string,
                             firstBytes: seq<byte>, io: SignIo): ExportRequest
    requires ValidClock(io)
  {
    var cert := SignerCertificate(name, email, io);
    var hash := DigitalSignature.ComputeDocumentHash(firstBytes, io.sha256);
    var signature := io.signData(hash, cert.privateKey);
    Request(pdfBytes, s, Some(SecondPassInfo(s, name, email, hash, cert.fingerprint, signature, io.now)))
  }

  /** The 'Digitally Signed' action dispatched between the two exports. */
  function SignedRecord(name: string, email: string, firstBytes: seq<byte>, io: SignIo): EditorAction
    requires ValidClock(io)
  {
    var hash := DigitalSignature.ComputeDocumentHash(firstBytes, io.sha256);
    AddAuditEntry("Digitally Signed", SignedAuditDetails(SignerCertificate(name, email, io).fingerprint, hash, name))
  }

  /** Everything after a successful first export: dispatch the record,
      export again, and download the second export's bytes when it
      succeeds. */
  function SecondPassEffects(pdfBytes: seq<byte>, filename: string, s: EditorState,
                             name: string, email: string, firstBytes: seq<byte>, io: SignIo): Effects
    requires ValidClock(io)
  {
    SecondPassOutcome(SignedRecord(name, email, firstBytes, io),
                      SecondPassRequest(pdfBytes, s, name, email, firstBytes, io), filename, io)
  }

  /** The dispatch of the record, the second export, and the download of
      its bytes under `AsWrittenSignedDownloadName` when it succeeds. */
  function SecondPassOutcome(record: EditorAction, second: ExportRequest, filename: string, io: SignIo): Effects
  {
    match ExportBytes(second, io)
    case Err(_) => Effects([second], [record], [], [SignFailedToast])
    case Ok(final) =>
      Effects([second], [record], [Download(final, DownloadPdf.AsWrittenSignedDownloadName(filename))], [SignedToast])
  }

  /** performDigitalSign: nothing without bytes or a name. Otherwise export
      once without signing information; hash those bytes; generate the
      certificate and sign the hash; dispatch the 'Digitally Signed' entry;
      export again with the signing information; download the second
      export's bytes. A failure at either export ends the run with the
      error toast. */
  function SignEffects(pdfBytes: Option<seq<byte>>, filename: string, s: EditorState,
                       name: string, email: string, io: SignIo): Effects
    requires ValidClock(io)
  {
    if pdfBytes.None? || name == "" then NoEffects
    else
      var first := Request(pdfBytes.value, s, None);
      match ExportBytes(first, io)
      case Err(_) => Effects([first], [], [], [SignFailedToast])
      case Ok(bytes) =>
        Effects([first], [], [], []).Then(SecondPassEffects(pdfBytes.value, filename, s, name, email, bytes, io))
  }

  /** The two dispatches of handleSignerSave. */
  function SignerSaveEffects(name: string, email: string): Effects
  {
    Effects([], [SetSignerInfo(Some(name), Some(email)),
                 AddAuditEntry("Signer Info Set", name + " <" + email + ">")], [], [])
  }

  /** Saving the signer information resumes a pending signature only when
      the trimmed name is non-empty. */
  predicate Resumes(pending: bool, name: string)
  {
    pending && Trim(name) != ""
  }

  // ---------------------------------------------------------------------------
  // The bar

  class Bar {
    var exporting: bool
    var pendingSign: bool
    var signerModalOpen: bool
    var exports: seq<ExportRequest>
    var dispatched: seq<EditorAction>
    var downloads: seq<Download>
    var toasts: seq<Toast>

    function Log(): Effects
      reads this
    {
      Effects(exports, dispatched, downloads, toasts)
    }

    constructor ()
      ensures !exporting && !pendingSign && !signerModalOpen
      ensures Log() == NoEffects
    {
      exporting := false;
      pendingSign := false;
      signerModalOpen := false;
      exports := [];
      dispatched := [];
      downloads := [];
      toasts := [];
    }

    /** One awaited call of exportSignedPdf, recorded in order. */
    method Export(req: ExportRequest, io: SignIo) returns (r: Result<seq<byte>>)
      modifies this
      ensures r == ExportBytes(req, io)
      ensures Log() == old(Log()).Then(Effects([req], [], [], []))
      ensures exporting == old(exporting) && pendingSign == old(pendingSign)
      ensures signerModalOpen == old(signerModalOpen)
    {
      exports := exports + [req];
      r := RunExport(req, io);
    }

    /** handleDownload; `exporting` is reset in `finally` on both paths. */
    method HandleDownload(pdfBytes: Option<seq<byte>>, filename: string, s: EditorState, io: SignIo)
      modifies this
      ensures Log() == old(Log()).Then(DownloadEffects(pdfBytes, filename, s, io))
      ensures exporting == (old(exporting) && pdfBytes.None?)
      ensures pendingSign == old(pendingSign) && signerModalOpen == old(signerModalOpen)
    {
      if pdfBytes.None? {
        return;
      }
      exporting := true;
      var r := Export(Request(pdfBytes.value, s, None), io);
      if r.Ok? {
        downloads := downloads + [Download(r.value, DownloadPdf.DownloadName(filename))];
        dispatched := dispatched + [AddAuditEntry("PDF Downloaded", NatToString(|s.annotations|) + " annotations")];
        toasts := toasts + [DownloadedToast];
      } else {
        toasts := toasts + [DownloadFailedToast];
      }
      exporting := false;
    }

    /** performDigitalSign, step by step. */
    method PerformDigitalSign(pdfBytes: Option<seq<byte>>, filename: string, s: EditorState,
                              name: string, email: string, io: SignIo)
      requires ValidClock(io)
      modifies this
      ensures Log() == old(Log()).Then(SignEffects(pdfBytes, filename, s, name, email, io))
      ensures exporting == (old(exporting) && (pdfBytes.None? || name == ""))
      ensures pendingSign == old(pendingSign) && signerModalOpen == old(signerModalOpen)
    {
      if pdfBytes.None? || name == "" {
        return;
      }
      exporting := true;
      var first := Request(pdfBytes.value, s, None);
      var pass1 := Export(first, io);
      if pass1.Err? {
        toasts := toasts + [SignFailedToast];
        exporting := false;
        return;
      }
      SignAndExport(pdfBytes.value, filename, s, name, email, pass1.value, io);
      ThenAssociative(old(Log()), Effects([first], [], [], []),
                      SecondPassEffects(pdfBytes.value, filename, s, name, email, pass1.value, io));
      exporting := false;
    }

    /** The part of performDigitalSign after the first export. */
    method SignAndExport(pdfBytes: seq<byte>, filename: string, s: EditorState,
                         name: string, email: string, firstBytes: seq<byte>, io: SignIo)
      requires ValidClock(io)
      modifies this
      ensures Log() == old(Log()).Then(SecondPassEffects(pdfBytes, filename, s, name, email, firstBytes, io))
      ensures exporting == old(exporting) && pendingSign == old(pendingSign)
      ensures signerModalOpen == old(signerModalOpen)
    {
      var record, second := PrepareSecondPass(pdfBytes, s, name, email, firstBytes, io);
      DispatchAndExport(record, second, filename, io);
    }

    /** Dispatch the 'Digitally Signed' entry, export the second time, and
        download on success. */
    method DispatchAndExport(record: EditorAction, second: ExportRequest, filename: string, io: SignIo)
      modifies this
      ensures Log() == old(Log()).Then(SecondPassOutcome(record, second, filename, io))
      ensures exporting == old(exporting) && pendingSign == old(pendingSign)
      ensures signerModalOpen == old(signerModalOpen)
    {
      dispatched := dispatched + [record];
      var pass2 := Export(second, io);
      if pass2.Ok? {
        var d := Download(pass2.value, DownloadPdf.AsWrittenSignedDownloadName(filename));
        assert SecondPassOutcome(record, second, filename, io) == Effects([second], [record], [d], [SignedToast]);
        downloads := downloads + [d];
        toasts := toasts + [SignedToast];
      } else {
        assert SecondPassOutcome(record, second, filename, io) == Effects([second], [record], [], [SignFailedToast]);
        toasts := toasts + [SignFailedToast];
      }
    }

    /** handleDigitalSign: without a signer name, remember the request and
        open the signer modal; otherwise sign with the stored name. */
    method HandleDigitalSign(pdfBytes: Option<seq<byte>>, filename: string, s: EditorState, io: SignIo)
      requires ValidClock(io)
      modifies this
      ensures pdfBytes.None? ==>
        && Log() == old(Log()) && pendingSign == old(pendingSign)
        && signerModalOpen == old(signerModalOpen) && exporting == old(exporting)
      ensures pdfBytes.Some? && s.signerName == "" ==>
        && Log() == old(Log()) && pendingSign && signerModalOpen && exporting == old(exporting)
      ensures pdfBytes.Some? && s.signerName != "" ==>
        && Log() == old(Log()).Then(SignEffects(pdfBytes, filename, s, s.signerName, s.signerEmail, io))
        && pendingSign == old(pendingSign) && signerModalOpen == old(signerModalOpen) && !exporting
    {
      if pdfBytes.None? {
        return;
      }
      if s.signerName == "" {
        pendingSign := true;
        signerModalOpen := true;
        return;
      }
      PerformDigitalSign(pdfBytes, filename, s, s.signerName, s.signerEmail, io);
    }

    /** handleSignerSave: record the signer and an audit entry; resume a
        pending signature with the trimmed name and email. The resumed run
        signs from the same captured state, which does not yet hold the two
        entries just dispatched. */
    method HandleSignerSave(name: string, email: string, pdfBytes: Option<seq<byte>>,
                            filename: string, s: EditorState, io: SignIo)
      requires ValidClock(io)
      modifies this
      ensures pendingSign == (old(pendingSign) && !Resumes(old(pendingSign), name))
      ensures Log() == old(Log()).Then(SignerSaveEffects(name, email)).Then(
        if Resumes(old(pendingSign), name)
        then SignEffects(pdfBytes, filename, s, Trim(name), Trim(email), io)
        else NoEffects)
      ensures signerModalOpen == old(signerModalOpen)
      ensures !Resumes(old(pendingSign), name) ==> exporting == old(exporting)
      ensures Resumes(old(pendingSign), name) && pdfBytes.Some? ==> !exporting
    {
      RecordSigner(name, email);
      ghost var saved := Log();
      var trimmedName, trimmedEmail := Trim(name), Trim(email);
      ResumePending(trimmedName, trimmedEmail, pdfBytes, filename, s, io);
      if !(old(pendingSign) && trimmedName != "") {
        ThenNothing(saved);
      }
    }

    /** The first half of handleSignerSave: the signer information and its
        audit entry are dispatched. */
    method RecordSigner(name: string, email: string)
      modifies this
      ensures Log() == old(Log()).Then(SignerSaveEffects(name, email))
      ensures pendingSign == old(pendingSign) && signerModalOpen == old(signerModalOpen)
      ensures exporting == old(exporting)
    {
      dispatched := dispatched + SignerSaveEffects(name, email).dispatched;
    }

    /** The second half of handleSignerSave, given the trimmed name and
        email: a pending signature resumes when the name is not empty. */
    method ResumePending(name: string, email: string, pdfBytes: Option<seq<byte>>,
                         filename: string, s: EditorState, io: SignIo)
      requires ValidClock(io)
      modifies this
      ensures pendingSign == (old(pendingSign) && name == "")
      ensures old(pendingSign) && name != "" ==>
        Log() == old(Log()).Then(SignEffects(pdfBytes, filename, s, name, email, io))
      ensures !(old(pendingSign) && name != "") ==> Log() == old(Log())
      ensures signerModalOpen == old(signerModalOpen)
      ensures !(old(pendingSign) && name != "") ==> exporting == old(exporting)
      ensures old(pendingSign) && name != "" && pdfBytes.Some? ==> !exporting
    {
      if pendingSign && name != "" {
        pendingSign := false;
        PerformDigitalSign(pdfBytes, filename, s, name, email, io);
      }
    }

    /** The signer modal's onClose: it closes and forgets a pending request. */
    method CloseSignerModal()
      modifies this
      ensures !signerModalOpen && !pendingSign
      ensures Log() == old(Log()) && exporting == old(exporting)
    {
      signerModalOpen := false;
      pendingSign := false;
    }

    /** The signer modal's Save button: onSave with the trimmed fields, then
        onClose. Afterwards nothing is pending and the modal is closed. */
    method SaveSignerModal(name: string, email: string, pdfBytes: Option<seq<byte>>,
                           filename: string, s: EditorState, io: SignIo)
      requires ValidClock(io)
      modifies this
      ensures !signerModalOpen && !pendingSign
      ensures Log() == old(Log()).Then(SignerSaveEffects(Trim(name), Trim(email))).Then(
        if Resumes(old(pendingSign), Trim(name))
        then SignEffects(pdfBytes, filename, s, Trim(Trim(name)), Trim(Trim(email)), io)
        else NoEffects)
    {
      HandleSignerSave(Trim(name), Trim(email), pdfBytes, filename, s, io);
      CloseSignerModal();
    }
  }

  // ---------------------------------------------------------------------------
  // Properties of the handlers

  /** A plain download exports once, without signing information; the
      'PDF Downloaded' entry and the download appear exactly when that
      export succeeds; there is always exactly one toast, an error one
      exactly on failure. Without bytes nothing happens. */
  lemma DownloadAuditOnlyOnSuccess(pdfBytes: Option<seq<byte>>, filename: string, s: EditorState, io: SignIo)
    ensures pdfBytes.None? ==> DownloadEffects(pdfBytes, filename, s, io) == NoEffects
    ensures pdfBytes.Some? ==>
      var e := DownloadEffects(pdfBytes, filename, s, io);
      var ok := ExportBytes(Request(pdfBytes.value, s, None), io).Ok?;
      && e.exports == [Request(pdfBytes.value, s, None)]
      && (ok <==> e.dispatched == [AddAuditEntry("PDF Downloaded", NatToString(|s.annotations|) + " annotations")])
      && (!ok <==> e.dispatched == [])
      && (ok <==> |e.downloads| == 1)
      && (ok ==> e.downloads[0].filename == DownloadPdf.DownloadName(filename))
      && |e.toasts| == 1 && (e.toasts[0].isError <==> !ok)
  {
  }

  /** performDigitalSign does nothing at all exactly when the original
      bytes are missing or the signer name is empty. */
  lemma SignGuard(pdfBytes: Option<seq<byte>>, filename: string, s: EditorState,
                  name: string, email: string, io: SignIo)
    requires ValidClock(io)
    ensures SignEffects(pdfBytes, filename, s, name, email, io) == NoEffects
        <==> (pdfBytes.None? || name == "")
  {
  }

  /** The first export carries the captured state and no signing
      information; if it fails nothing is dispatched or downloaded. */
  lemma FirstPassUnsigned(pdfBytes: Option<seq<byte>>, filename: string, s: EditorState,
                          name: string, email: string, io: SignIo)
    requires ValidClock(io)
    requires pdfBytes.Some? && name != ""
    ensures var e := SignEffects(pdfBytes, filename, s, name, email, io);
      && 1 <= |e.exports| <= 2
      && e.exports[0] == Request(pdfBytes.value, s, None)
      && e.exports[0].digitalSign.None?
      && (ExportBytes(e.exports[0], io).Err? ==>
            |e.exports| == 1 && e.dispatched == [] && e.downloads == [] && e.toasts == [SignFailedToast])
  {
  }

  /** After a successful first export the effects are those of the first
      export followed by the second pass, made from the first export's
      bytes. */
  lemma SignEffectsAfterFirstPass(pdfBytes: seq<byte>, filename: string, s: EditorState,
                                  name: string, email: string, io: SignIo)
    requires ValidClock(io)
    requires name != ""
    requires ExportBytes(Request(pdfBytes, s, None), io).Ok?
    ensures var bytes := ExportBytes(Request(pdfBytes, s, None), io).value;
      SignEffects(Some(pdfBytes), filename, s, name, email, io)
        == Effects([Request(pdfBytes, s, None)], [], [], []).Then(
             SecondPassOutcome(SignedRecord(name, email, bytes, io),
                               SecondPassRequest(pdfBytes, s, name, email, bytes, io), filename, io))
  {
  }

  /** The first export followed by the second pass: both requests, the one
      record, and the download and toast that the second export's outcome
      decides. */
  lemma FirstThenSecondPass(first: ExportRequest, record: EditorAction, second: ExportRequest,
                            filename: string, io: SignIo)
    ensures var (e, ok) := (Effects([first], [], [], []).Then(SecondPassOutcome(record, second, filename, io)),
                            ExportBytes(second, io).Ok?);
      && e.exports == [first, second] && e.dispatched == [record]
      && (ok ==> e.downloads == [Download(ExportBytes(second, io).value, DownloadPdf.AsWrittenSignedDownloadName(filename))])
      && (!ok ==> e.downloads == [])
      && e.toasts == [if ok then SignedToast else SignFailedToast]
  {
  }

  /** SignEffectsAfterFirstPass and FirstThenSecondPass together. */
  lemma SecondPassShape(pdfBytes: seq<byte>, filename: string, s: EditorState,
                        name: string, email: string, io: SignIo)
    requires ValidClock(io)
    requires name != ""
    requires ExportBytes(Request(pdfBytes, s, None), io).Ok?
    ensures var (bytes, e) := (ExportBytes(Request(pdfBytes, s, None), io).value,
                               SignEffects(Some(pdfBytes), filename, s, name, email, io));
      var second := SecondPassRequest(pdfBytes, s, name, email, bytes, io);
      var ok := ExportBytes(second, io).Ok?;
      && e.exports == [Request(pdfBytes, s, None), second]
      && e.dispatched == [SignedRecord(name, email, bytes, io)]
      && (ok ==> e.downloads == [Download(ExportBytes(second, io).value, DownloadPdf.AsWrittenSignedDownloadName(filename))])
      && (!ok ==> e.downloads == [])
      && e.toasts == [if ok then SignedToast else SignFailedToast]
  {
    var bytes := ExportBytes(Request(pdfBytes, s, None), io).value;
    SignEffectsAfterFirstPass(pdfBytes, filename, s, name, email, io);
    FirstThenSecondPass(Request(pdfBytes, s, None), SignedRecord(name, email, bytes, io),
                        SecondPassRequest(pdfBytes, s, name, email, bytes, io), filename, io);
  }

  /** When the first export succeeds, the second export is the same request
      with signing information added, and its document hash is the hash of
      the first export's bytes. */
  lemma HashFeedsSecondPass(pdfBytes: Option<seq<byte>>, filename: string, s: EditorState,
                            name: string, email: string, io: SignIo)
    requires ValidClock(io)
    requires pdfBytes.Some? && name != ""
    requires ExportBytes(Request(pdfBytes.value, s, None), io).Ok?
    ensures var e := SignEffects(pdfBytes, filename, s, name, email, io);
      && |e.exports| == 2
      && e.exports[1].(digitalSign := None) == e.exports[0]
      && e.exports[1].digitalSign.Some?
      && e.exports[1].digitalSign.value.documentHash
         == DigitalSignature.ComputeDocumentHash(ExportBytes(e.exports[0], io).value, io.sha256)
  {
    SecondPassShape(pdfBytes.value, filename, s, name, email, io);
  }

  /** The certificate page's audit trail is the captured log with exactly
      one 'Digitally Signed' entry appended, stamped with the signing time
      and naming the full fingerprint. */
  lemma SecondPassAuditLog(pdfBytes: Option<seq<byte>>, filename: string, s: EditorState,
                           name: string, email: string, io: SignIo)
    requires ValidClock(io)
    requires pdfBytes.Some? && name != ""
    requires ExportBytes(Request(pdfBytes.value, s, None), io).Ok?
    ensures var info := SignEffects(pdfBytes, filename, s, name, email, io).exports[1].digitalSign.value;
      && |info.auditLog| == |s.auditLog| + 1
      && info.auditLog[..|s.auditLog|] == s.auditLog
      && info.auditLog[|s.auditLog|].action == "Digitally Signed"
      && info.auditLog[|s.auditLog|].timestamp == io.now
      && OccursAt(info.auditLog[|s.auditLog|].details, "Certificate: " + info.certificateFingerprint, 0)
  {
    var bytes := ExportBytes(Request(pdfBytes.value, s, None), io).value;
    SecondPassShape(pdfBytes.value, filename, s, name, email, io);
    var cert := SignerCertificate(name, email, io);
    var hash := DigitalSignature.ComputeDocumentHash(bytes, io.sha256);
    var signature := io.signData(hash, cert.privateKey);
    assert SecondPassRequest(pdfBytes.value, s, name, email, bytes, io).digitalSign.value
        == SecondPassInfo(s, name, email, hash, cert.fingerprint, signature, io.now);
    SecondPassInfoLog(s, name, email, hash, cert.fingerprint, signature, io.now);
  }

  /** The bytes the second pass downloads are what pdfDoc.save returned for
      a plan with the certificate page added, drawn from the second
      request's signing information, whose audit trail ends with the
      'Digitally Signed' entry. */
  lemma SecondPassSavesCertificatePage(pdfBytes: Option<seq<byte>>, filename: string, s: EditorState,
                                       name: string, email: string, io: SignIo)
    requires ValidClock(io)
    requires pdfBytes.Some? && name != ""
    requires ExportBytes(Request(pdfBytes.value, s, None), io).Ok?
    ensures var e := SignEffects(pdfBytes, filename, s, name, email, io);
      var info := e.exports[1].digitalSign.value;
      && info.auditLog != [] && info.auditLog[|info.auditLog| - 1].action == "Digitally Signed"
      && (ExportBytes(e.exports[1], io).Ok? ==>
           exists plan: PdfExporter.ExportResult :: io.save(plan) == Some(e.downloads[0].bytes)
             && plan.auditPage == Some(PdfExporter.AuditPageOps(info, io.exportEnv)))
  {
    var e := SignEffects(pdfBytes, filename, s, name, email, io);
    SecondPassAuditLog(pdfBytes, filename, s, name, email, io);
    SecondPassShape(pdfBytes.value, filename, s, name, email, io);
    var req := e.exports[1];
    if ExportBytes(req, io).Ok? {
      var pages := io.load(req.original).value;
      var plan := PdfExporter.ExportPlan(PdfExporter.ExportInput(pages, req.annotations,
        req.pageDimensions, req.watermark, req.headerFooter, req.totalPages, req.digitalSign), io.exportEnv);
      assert io.save(plan) == Some(e.downloads[0].bytes);
    }
  }

  lemma SecondPassInfoLog(s: EditorState, name: string, email: string, hash: string,
                          fingerprint: string, signature: string, now: string)
    ensures var info := SecondPassInfo(s, name, email, hash, fingerprint, signature, now);
      && |info.auditLog| == |s.auditLog| + 1
      && info.auditLog[..|s.auditLog|] == s.auditLog
      && info.auditLog[|s.auditLog|].action == "Digitally Signed"
      && info.auditLog[|s.auditLog|].timestamp == now
      && info.certificateFingerprint == fingerprint
      && OccursAt(info.auditLog[|s.auditLog|].details, "Certificate: " + fingerprint, 0)
  {
    var info := SecondPassInfo(s, name, email, hash, fingerprint, signature, now);
    var d := info.auditLog[|s.auditLog|].details;
    var p := "Certificate: " + fingerprint;
    assert d[..|p|] == p;
  }

  /** The certificate is issued to the signer name and to the email, or to
      'signer@local' when the email is empty; the certificate page shows
      the email as given, empty or not. */
  lemma CertificateEmailDefault(pdfBytes: Option<seq<byte>>, filename: string, s: EditorState,
                                name: string, email: string, io: SignIo)
    requires ValidClock(io)
    requires pdfBytes.Some? && name != ""
    requires ExportBytes(Request(pdfBytes.value, s, None), io).Ok?
    ensures var info := SignEffects(pdfBytes, filename, s, name, email, io).exports[1].digitalSign.value;
      var certInfo := DigitalSignature.CertificateInfo(name, if email == "" then "signer@local" else email, None, None);
      && info.signerName == name
      && info.signerEmail == email
      && info.certificateFingerprint == DigitalSignature.SelfSignedCertificate(certInfo, io.cert).fingerprint
      && DigitalSignature.CertificateFields(certInfo, io.cert).subject
         == [DigitalSignature.Attribute("commonName", name),
             DigitalSignature.Attribute("emailAddress", if email == "" then "signer@local" else email)]
  {
  }

  /** The 'Digitally Signed' entry reaches the editor as soon as the first
      export succeeds, before the second export, so a failed second export
      still leaves it in the editor's audit log; the download happens only
      when both exports succeed, under `AsWrittenSignedDownloadName`, with the second
      export's bytes. */
  lemma SignedEntryBeforeSecondPass(pdfBytes: Option<seq<byte>>, filename: string, s: EditorState,
                                    name: string, email: string, io: SignIo)
    requires ValidClock(io)
    requires pdfBytes.Some? && name != ""
    requires ExportBytes(Request(pdfBytes.value, s, None), io).Ok?
    ensures var e := SignEffects(pdfBytes, filename, s, name, email, io);
      var ok := ExportBytes(e.exports[1], io).Ok?;
      && |e.dispatched| == 1
      && e.dispatched[0].AddAuditEntry? && e.dispatched[0].auditAction == "Digitally Signed"
      && (ok <==> |e.downloads| == 1)
      && (ok ==> e.downloads == [Download(ExportBytes(e.exports[1], io).value, DownloadPdf.AsWrittenSignedDownloadName(filename))])
      && e.toasts == [if ok then SignedToast else SignFailedToast]
  {
    SecondPassShape(pdfBytes.value, filename, s, name, email, io);
  }
}
