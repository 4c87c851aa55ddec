// The template helpers (templatetags/my_form_helpers.py): two inclusion tags
// that only assemble a template context, and two filters. Templates and the
// rendering engine are not modelled; a context is a record of its values.

module FormHelpers {
  import opened Wrappers
  import opened Text

  // ---------------------------------------------------------------- progress_graph

  /** The context of helpers/utilization_graph.html. */
  datatype GraphContext = GraphContext(utilization: int, warningThreshold: int, dangerThreshold: int)

  /** progress_graph: passes the utilisation and both thresholds through; a
      threshold that is not given is 101. */
  function ProgressGraph(utilization: int, warningThreshold: int := 101, dangerThreshold: int := 101): (c: GraphContext)
    ensures c.utilization == utilization
    ensures c.warningThreshold == warningThreshold && c.dangerThreshold == dangerThreshold
  {
    GraphContext(utilization, warningThreshold, dangerThreshold)
  }

  /** With the default thresholds no utilisation of at most 100 percent reaches either threshold. */
  lemma DefaultThresholdsAboveFull(utilization: int)
    requires utilization <= 100
    ensures ProgressGraph(utilization).utilization < ProgressGraph(utilization).warningThreshold
    ensures ProgressGraph(utilization).utilization < ProgressGraph(utilization).dangerThreshold
  {
  }

  // ---------------------------------------------------------------- my_render_field

  /** A form field as the tag reads it: only its own label. */
  datatype FormField = FormField(fieldLabel: string)

  /** The context of software_manager/my_render_field.html. */
  datatype FieldContext = FieldContext(field: FormField, shownLabel: string, bulkNullable: bool, labelText: string)

  /** Python truthiness of an optional text: present and not empty. */
  predicate Truthy(s: Option<string>) {
    s.Some? && s.value != ""
  }

  /** my_render_field: an empty or missing label falls back to the field's
      own label, an empty or missing label text to "Set Null". */
  function MyRenderField(field: FormField, bulkNullable: bool := false, givenLabel: Option<string> := None,
                         labelText: Option<string> := None): (c: FieldContext)
    ensures c.field == field && c.bulkNullable == bulkNullable
    ensures Truthy(givenLabel) ==> c.shownLabel == givenLabel.value
    ensures !Truthy(givenLabel) ==> c.shownLabel == field.fieldLabel
    ensures Truthy(labelText) ==> c.labelText == labelText.value
    ensures !Truthy(labelText) ==> c.labelText == "Set Null"
  {
    FieldContext(field, if Truthy(givenLabel) then givenLabel.value else field.fieldLabel, bulkNullable,
                 if Truthy(labelText) then labelText.value else "Set Null")
  }

  /** The rendered label text is never empty, and rendering again with the
      rendered label and label text gives the same context. */
  lemma RenderFieldSettles(field: FormField, bulkNullable: bool, givenLabel: Option<string>, labelText: Option<string>)
    ensures MyRenderField(field, bulkNullable, givenLabel, labelText).labelText != ""
    ensures var c := MyRenderField(field, bulkNullable, givenLabel, labelText);
      c.shownLabel != "" ==> MyRenderField(field, bulkNullable, Some(c.shownLabel), Some(c.labelText)) == c
  {
    var c := MyRenderField(field, bulkNullable, givenLabel, labelText);
    assert c.labelText != "" by {
      if !Truthy(labelText) {
        assert c.labelText[0] == 'S';
      }
    }
  }

  // ---------------------------------------------------------------- get_current_version

  /** get_current_version: the device's "sw_version" custom field, or None when it is not set. */
  function GetCurrentVersion(customFieldData: map<string, string>): (v: Option<string>)
    ensures v.Some? <==> "sw_version" in customFieldData
    ensures v.Some? ==> v.value == customFieldData["sw_version"]
  {
    if "sw_version" in customFieldData then Some(customFieldData["sw_version"]) else None
  }

  /** Writing the version field is what the filter shows afterwards; writing any other field leaves it as it was. */
  lemma CurrentVersionAfterWrite(customFieldData: map<string, string>, name: string, value: string)
    ensures name == "sw_version" ==> GetCurrentVersion(customFieldData[name := value]) == Some(value)
    ensures name != "sw_version" ==> GetCurrentVersion(customFieldData[name := value]) == GetCurrentVersion(customFieldData)
  {
    var after := customFieldData[name := value];
    if name != "sw_version" {
      assert ("sw_version" in after) == ("sw_version" in customFieldData);
    }
  }

  // ---------------------------------------------------------------- cut_job_id

  /** What the filter is given: a text, or a value without a length (None). */
  datatype JobIdValue = Text(s: string) | NoLength

  /** cut_job_id: a text longer than 10 becomes its first four characters,
      "..." and its last four; anything else, including a value whose length
      cannot be taken, is returned unchanged. */
  function CutJobId(jobId: JobIdValue): (r: JobIdValue)
    ensures jobId.NoLength? || |jobId.s| <= 10 ==> r == jobId
    ensures jobId.Text? && |jobId.s| > 10 ==>
      && r.Text? && |r.s| == 11
      && r.s[..4] == jobId.s[..4]
      && r.s[4..7] == "..."
      && r.s[7..] == jobId.s[|jobId.s| - 4..]
    ensures r.Text? <==> jobId.Text?
  {
    match jobId
    case NoLength => jobId
    case Text(s) => if |s| > 10 then Text(s[..4] + "..." + s[|s| - 4..]) else jobId
  }

  /** A shown job id has at most 11 characters, and a cut id is cut to itself again. */
  lemma CutJobIdIdempotent(jobId: JobIdValue)
    ensures CutJobId(jobId).Text? ==> |CutJobId(jobId).s| <= 11
    ensures CutJobId(CutJobId(jobId)) == CutJobId(jobId)
  {
    var r := CutJobId(jobId);
    if jobId.Text? && |jobId.s| > 10 {
      var t := r.s;
      assert t == t[..4] + t[4..7] + t[7..];
      assert t[..4] == t[..4] && t[|t| - 4..] == t[7..];
      assert t[..4] + "..." + t[|t| - 4..] == t;
    }
  }
}
