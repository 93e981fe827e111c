/**
 * The toolbar's export and print handlers, as the sequence of effects each
 * click produces: the exporting flag, the call into the exporter, and the
 * toast chosen. Whether the preview element exists and whether the export
 * resolves or throws are inputs.
 */
module Toolbar {
  datatype ExportKind = PdfExport | ImageExport

  datatype Outcome = Resolves | Throws

  datatype ToastKind = SuccessToast | ErrorToast

  datatype Effect =
    | SetExporting(on: bool)
    | CallExport(kind: ExportKind, filename: string)
    | ShowToast(toast: ToastKind, text: string)
    | CallPrint

  /** The download name: the profile name followed by '-简历' and the extension. */
  function FileName(kind: ExportKind, profileName: string): (r: string)
    ensures kind == PdfExport ==> r == profileName + "-简历.pdf"
    ensures kind == ImageExport ==> r == profileName + "-简历.png"
  {
    profileName + "-简历" + (if kind == PdfExport then ".pdf" else ".png")
  }

  function SuccessText(kind: ExportKind): string {
    if kind == PdfExport then "PDF导出成功！" else "图片导出成功！"
  }

  const ErrorText: string := "导出失败，请重试"

  /**
   * `handleExportPDF` / `handleExportImage`: raise the flag; if the preview element
   * exists, call the exporter and toast success once it resolves or the error
   * message if it throws; lower the flag in every case.
   */
  function HandleExport(kind: ExportKind, profileName: string, elementPresent: bool, outcome: Outcome): (r: seq<Effect>)
    ensures |r| >= 2 && r[0] == SetExporting(true) && r[|r| - 1] == SetExporting(false)
    ensures forall i :: 0 < i < |r| - 1 ==> !r[i].SetExporting?
    ensures CallExport(kind, FileName(kind, profileName)) in r <==> elementPresent
    ensures forall i :: 0 <= i < |r| && r[i].CallExport? ==> r[i] == CallExport(kind, FileName(kind, profileName))
    ensures !elementPresent ==> forall i :: 0 <= i < |r| ==> !r[i].ShowToast?
    ensures ShowToast(SuccessToast, SuccessText(kind)) in r <==> elementPresent && outcome == Resolves
    ensures ShowToast(ErrorToast, ErrorText) in r <==> elementPresent && outcome == Throws
    ensures elementPresent ==> r[1] == CallExport(kind, FileName(kind, profileName)) && r[2].ShowToast? && |r| == 4
  {
    var body :=
      if elementPresent then
        [CallExport(kind, FileName(kind, profileName)),
         if outcome == Resolves then ShowToast(SuccessToast, SuccessText(kind)) else ShowToast(ErrorToast, ErrorText)]
      else [];
    [SetExporting(true)] + body + [SetExporting(false)]
  }

  /** The exporting flag after a run of effects. */
  function FlagAfter(flag: bool, effects: seq<Effect>): bool
    decreases |effects|
  {
    if effects == [] then flag
    else FlagAfter(if effects[0].SetExporting? then effects[0].on else flag, effects[1..])
  }

  /** Every export ends with the flag down, and the flag is up while the exporter runs. */
  lemma ExportLowersFlag(flag: bool, kind: ExportKind, name: string, present: bool, outcome: Outcome)
    ensures FlagAfter(flag, HandleExport(kind, name, present, outcome)) == false
    ensures present ==> FlagAfter(flag, HandleExport(kind, name, present, outcome)[..2]) == true
  {
    var r := HandleExport(kind, name, present, outcome);
    FlagAfterSplit(flag, r[..|r| - 1], [SetExporting(false)]);
    assert r == r[..|r| - 1] + [SetExporting(false)];
    if present {
      assert r[..2] == [SetExporting(true)] + [r[1]];
      FlagAfterSplit(flag, [SetExporting(true)], [r[1]]);
    }
  }

  lemma {:induction false} FlagAfterSplit(flag: bool, a: seq<Effect>, b: seq<Effect>)
    ensures FlagAfter(flag, a + b) == FlagAfter(FlagAfter(flag, a), b)
    decreases |a|
  {
    if a != [] {
      assert (a + b)[0] == a[0];
      assert (a + b)[1..] == a[1..] + b;
      FlagAfterSplit(if a[0].SetExporting? then a[0].on else flag, a[1..], b);
    } else {
      assert a + b == b;
    }
  }

  /** `handlePrint`: print the element when it exists; the flag is neither read nor set. */
  function HandlePrint(elementPresent: bool): (r: seq<Effect>)
    ensures forall i :: 0 <= i < |r| ==> !r[i].SetExporting? && !r[i].ShowToast?
    ensures CallPrint in r <==> elementPresent
  {
    if elementPresent then [CallPrint] else []
  }

  datatype Button = PrintButton | ImageButton | PdfButton

  /** All three buttons are disabled while an export runs; a click on a disabled button does nothing. */
  function Click(b: Button, exporting: bool, profileName: string, elementPresent: bool, outcome: Outcome): (r: seq<Effect>)
    ensures exporting ==> r == []
    ensures !exporting && b == PrintButton ==> r == HandlePrint(elementPresent)
    ensures !exporting && b == PdfButton ==> r == HandleExport(PdfExport, profileName, elementPresent, outcome)
    ensures !exporting && b == ImageButton ==> r == HandleExport(ImageExport, profileName, elementPresent, outcome)
  {
    if exporting then []
    else
      match b
      case PrintButton => HandlePrint(elementPresent)
      case ImageButton => HandleExport(ImageExport, profileName, elementPresent, outcome)
      case PdfButton => HandleExport(PdfExport, profileName, elementPresent, outcome)
  }

  /** Printing leaves the exporting flag as it was. */
  lemma PrintKeepsFlag(flag: bool, present: bool)
    ensures FlagAfter(flag, HandlePrint(present)) == flag
  {
  }
}
