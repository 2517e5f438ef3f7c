/**
 * The "Generate Report" dialog: a form (project, developer, recipient and
 * four include check boxes), the guards of its two buttons and the
 * simulated generation that closes the dialog.
 */
module GenerateReportModal {
  datatype ReportForm = ReportForm(
    project: string, developer: string, recipientEmail: string,
    includeJira: bool, includeGithub: bool, includeRisks: bool, includeSummary: bool)

  const InitialForm := ReportForm("", "", "", true, true, true, true)

  /** The three text-valued controls: two selects and the e-mail input. */
  datatype TextField = ProjectField | DeveloperField | RecipientEmailField

  /** The four check boxes. */
  datatype IncludeKey = IncludeJira | IncludeGithub | IncludeRisks | IncludeSummary

  function Text(f: ReportForm, field: TextField): string {
    match field
    case ProjectField => f.project
    case DeveloperField => f.developer
    case RecipientEmailField => f.recipientEmail
  }

  function Included(f: ReportForm, key: IncludeKey): bool {
    match key
    case IncludeJira => f.includeJira
    case IncludeGithub => f.includeGithub
    case IncludeRisks => f.includeRisks
    case IncludeSummary => f.includeSummary
  }

  /** `setFormData({ ...formData, <field>: value })` for a select or the input. */
  function WithText(f: ReportForm, field: TextField, value: string): (r: ReportForm)
    ensures forall g :: Text(r, g) == if g == field then value else Text(f, g)
    ensures forall k :: Included(r, k) == Included(f, k)
  {
    match field
    case ProjectField => f.(project := value)
    case DeveloperField => f.(developer := value)
    case RecipientEmailField => f.(recipientEmail := value)
  }

  /** `setFormData({ ...formData, [option.key]: checked })`. */
  function WithIncluded(f: ReportForm, key: IncludeKey, checked: bool): (r: ReportForm)
    ensures forall k :: Included(r, k) == if k == key then checked else Included(f, k)
    ensures forall g :: Text(r, g) == Text(f, g)
  {
    match key
    case IncludeJira => f.(includeJira := checked)
    case IncludeGithub => f.(includeGithub := checked)
    case IncludeRisks => f.(includeRisks := checked)
    case IncludeSummary => f.(includeSummary := checked)
  }

  /** The dialog opens with nothing chosen and every section included. */
  lemma InitialFormContents(g: TextField, k: IncludeKey)
    ensures Text(InitialForm, g) == "" && Included(InitialForm, k)
  {
  }

  /** Unticking and re-ticking a box gives back the form. */
  lemma WithIncludedRestores(f: ReportForm, key: IncludeKey, checked: bool)
    ensures WithIncluded(WithIncluded(f, key, checked), key, Included(f, key)) == f
  {
    var r := WithIncluded(WithIncluded(f, key, checked), key, Included(f, key));
    assert Included(r, IncludeJira) == f.includeJira && Included(r, IncludeGithub) == f.includeGithub;
    assert Included(r, IncludeRisks) == f.includeRisks && Included(r, IncludeSummary) == f.includeSummary;
    assert Text(r, ProjectField) == f.project && Text(r, DeveloperField) == f.developer;
    assert Text(r, RecipientEmailField) == f.recipientEmail;
  }

  predicate DownloadDisabled(isGenerating: bool, f: ReportForm) {
    isGenerating || f.project == ""
  }

  predicate SendDisabled(isGenerating: bool, f: ReportForm) {
    isGenerating || f.project == "" || f.recipientEmail == ""
  }

  /** Send needs everything Download needs, and a recipient besides. */
  lemma SendEnabledImpliesDownloadEnabled(isGenerating: bool, f: ReportForm)
    ensures !SendDisabled(isGenerating, f) ==> !DownloadDisabled(isGenerating, f)
    ensures !DownloadDisabled(isGenerating, f) && SendDisabled(isGenerating, f) <==>
      !isGenerating && f.project != "" && f.recipientEmail == ""
  {
  }

  /** A fresh dialog offers neither button; choosing a project enables
      Download, and a recipient besides enables Send. Nothing is offered
      while a report is being generated. */
  lemma ButtonsFollowForm(project: string, email: string, f: ReportForm)
    requires project != "" && email != ""
    ensures DownloadDisabled(false, InitialForm) && SendDisabled(false, InitialForm)
    ensures var chosen := WithText(InitialForm, ProjectField, project);
      !DownloadDisabled(false, chosen) && SendDisabled(false, chosen) &&
      !SendDisabled(false, WithText(chosen, RecipientEmailField, email))
    ensures DownloadDisabled(true, f) && SendDisabled(true, f)
  {
    var chosen := WithText(InitialForm, ProjectField, project);
    assert Text(chosen, ProjectField) == project && Text(chosen, RecipientEmailField) == "";
    var both := WithText(chosen, RecipientEmailField, email);
    assert Text(both, ProjectField) == project && Text(both, RecipientEmailField) == email;
  }

  datatype Action = Send | Download

  /** The toast shown once a report is ready. */
  function GeneratedMessage(action: Action, f: ReportForm): string {
    match action
    case Send => "Report sent to " + f.recipientEmail
    case Download => "Report downloaded successfully"
  }

  class ReportDialog {
    var open: bool
    var isGenerating: bool
    var formData: ReportForm

    constructor ()
      ensures !open && !isGenerating && formData == InitialForm
    {
      open := false;
      isGenerating := false;
      formData := InitialForm;
    }

    /** The dialog's `onOpenChange`. */
    method SetOpen(value: bool)
      modifies this
      ensures open == value && isGenerating == old(isGenerating) && formData == old(formData)
    {
      open := value;
    }

    method SetText(field: TextField, value: string)
      modifies this
      ensures formData == WithText(old(formData), field, value)
      ensures open == old(open) && isGenerating == old(isGenerating)
    {
      formData := WithText(formData, field, value);
    }

    method SetIncluded(key: IncludeKey, checked: bool)
      modifies this
      ensures formData == WithIncluded(old(formData), key, checked)
      ensures open == old(open) && isGenerating == old(isGenerating)
    {
      formData := WithIncluded(formData, key, checked);
    }

    /** `handleGenerate`, with the simulated delay taken as finished: the
        dialog closes, the flag is cleared and the form is kept as it was. */
    method HandleGenerate(action: Action) returns (message: string)
      modifies this
      ensures message == GeneratedMessage(action, old(formData))
      ensures !isGenerating && !open && formData == old(formData)
    {
      isGenerating := true;
      message := GeneratedMessage(action, formData);
      isGenerating := false;
      open := false;
    }
  }
}
