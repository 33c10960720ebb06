/**
 * The formatter: a fixed six-entry map from payment-form fields to the
 * extracted fields that feed them.  Each form field is either filled (with
 * a normalised value) or reported as missing; filled fields whose score is
 * below 0.7 are also listed for review.
 */
module FormatService {
  import opened Values

  /** One entry of the field map: the form field and the extracted field it reads. */
  datatype Mapping = Mapping(formField: string, dataField: string)

  const FieldMap: seq<Mapping> := [
    Mapping("payee_name", "vendor_name"),
    Mapping("payment_amount", "total_amount"),
    Mapping("reference_number", "reference_number"),
    Mapping("payment_date", "payment_due_date"),
    Mapping("transaction_date", "transaction_date"),
    Mapping("account_holder", "customer_name")
  ]

  datatype ReviewItem = ReviewItem(field: string, value: Value, confidence: real, reasoning: string)

  datatype FormattedOutput = FormattedOutput(
    formFields: map<string, Value>,
    reviewRequired: seq<ReviewItem>,
    warnings: seq<string>,
    readyToFill: bool)

  /** The three inputs of a formatting run, and the number primitives it uses. */
  datatype FormInput = FormInput(
    extracted: Fields,
    validation: ValidationMap,
    scores: Option<ScoreMap>,
    prims: Primitives)

  predicate DistinctForms(es: seq<Mapping>)
  {
    forall i, j :: 0 <= i < j < |es| ==> es[i].formField != es[j].formField
  }

  // ---------------------------------------------------------------------
  // One field

  /** A truthy `numericValue`. */
  predicate NumberTruthy(n: Option<real>)
  {
    n.Some? && n.value != 0.0
  }

  /** The per-field clean-up applied to a value that is about to fill the form. */
  function FormatValue(fieldName: string, value: Value, validation: ValidationResult, prims: Primitives): Value
  {
    var valueStr := JsString(value, prims.numberToString);
    if fieldName == "total_amount" then
      if IsNumber(value) then value
      else if NumberTruthy(validation.numericValue) then Num(validation.numericValue.value)
      else ParseNumber(prims, StripAmountText(valueStr))
    else if fieldName == "transaction_date" || fieldName == "payment_due_date" then
      Str(valueStr)
    else if fieldName == "vendor_name" || fieldName == "customer_name" then
      Str(Trim(valueStr))
    else if fieldName == "reference_number" then
      Str(CollapseSpaces(Trim(valueStr)))
    else
      value
  }

  /** A text with no white space at either end. */
  predicate Trimmed(s: string)
  {
    s == [] || (!IsSpace(s[0]) && !IsSpace(s[|s| - 1]))
  }

  /**
   * The amount always comes out as a number: a number passes through, a
   * truthy `numericValue` wins next, and otherwise the text is read without
   * its ',', '$' and white space.  Names lose the white space at their ends,
   * references also have every inner run of white space turned into one
   * blank, dates are kept verbatim; other fields pass through.  No visible
   * character is lost or reordered.
   */
  lemma FormatValueRules(fieldName: string, value: Value, validation: ValidationResult, prims: Primitives)
    ensures var r := FormatValue(fieldName, value, validation, prims);
      var text := JsString(value, prims.numberToString);
      && (fieldName == "total_amount" ==>
            && IsNumber(r)
            && (IsNumber(value) ==> r == value)
            && (!IsNumber(value) && NumberTruthy(validation.numericValue) ==> r == Num(validation.numericValue.value))
            && (!IsNumber(value) && !NumberTruthy(validation.numericValue) ==>
                  r == ParseNumber(prims, StripAmountText(text))))
      && (fieldName in {"transaction_date", "payment_due_date"} ==> r == Str(text) && (value.Str? ==> r == value))
      && (fieldName in {"vendor_name", "customer_name"} ==>
            && r.Str? && Trimmed(r.s) && Visible(r.s) == Visible(text)
            && (exists i, j :: SliceBetweenSpaces(text, r.s, i, j)))
      && (fieldName == "reference_number" ==>
            && r.Str? && r.s == JoinWords(Words(text))
            && Trimmed(r.s) && OnlyBlanks(r.s) && NoSpaceRuns(r.s)
            && Visible(r.s) == Visible(text))
      && (fieldName !in {"total_amount", "transaction_date", "payment_due_date", "vendor_name", "customer_name", "reference_number"} ==>
            r == value)
  {
    var text := JsString(value, prims.numberToString);
    var r := FormatValue(fieldName, value, validation, prims);
    if fieldName == "total_amount" {
    } else if fieldName == "transaction_date" || fieldName == "payment_due_date" {
      assert r == Str(text);
    } else if fieldName == "vendor_name" || fieldName == "customer_name" {
      assert r == Str(Trim(text));
      NameRule(text);
    } else if fieldName == "reference_number" {
      assert r == Str(CollapseSpaces(Trim(text)));
      ReferenceRule(text);
    } else {
      assert r == value;
    }
  }

  /**
   * A trimmed name is the name with the white space at its two ends cut
   * off: a contiguous slice, so inner white space is kept, with no white
   * space left at either end and every visible character kept.
   */
  lemma NameRule(text: string)
    ensures exists i, j :: SliceBetweenSpaces(text, Trim(text), i, j)
    ensures Trimmed(Trim(text)) && Visible(Trim(text)) == Visible(text)
  {
    TrimVisible(text);
  }

  /**
   * A cleaned reference is its words joined by single blanks; so it is
   * trimmed, has single blanks only, and keeps every visible character.
   */
  lemma ReferenceRule(text: string)
    ensures var r := CollapseSpaces(Trim(text));
      && r == JoinWords(Words(text))
      && Trimmed(r) && OnlyBlanks(r) && NoSpaceRuns(r) && Visible(r) == Visible(text)
  {
    CollapseTrimmed(text);
    TrimVisible(text);
    var t := Trim(text);
    CollapseShape(t);
    CollapseVisible(t);
    if t != [] {
      CollapseHead(t);
      CollapseLast(t);
    }
  }

  // ---------------------------------------------------------------------
  // The field map, entry by entry

  /** `!value || !validation?.valid` fails: the form field is filled. */
  predicate Included(input: FormInput, dataField: string)
  {
    Truthy(Get(input.extracted, dataField)) && dataField in input.validation && input.validation[dataField].valid
  }

  /** `scores?.[dataField]` */
  function ScoreOf(input: FormInput, dataField: string): Option<Score>
  {
    if input.scores.Some? && dataField in input.scores.value then Some(input.scores.value[dataField]) else None
  }

  /** A filled field whose score is below 0.7. */
  predicate Reviewed(input: FormInput, dataField: string)
  {
    Included(input, dataField) && ScoreOf(input, dataField).Some? && ScoreOf(input, dataField).value.confidence < 0.7
  }

  function FormattedAt(input: FormInput, dataField: string): Value
    requires Included(input, dataField)
  {
    FormatValue(dataField, Get(input.extracted, dataField), input.validation[dataField], input.prims)
  }

  function WarningText(formField: string): string
  {
    formField + ": Missing or invalid data"
  }

  function ReviewItemFor(input: FormInput, e: Mapping): ReviewItem
    requires Reviewed(input, e.dataField)
  {
    var score := ScoreOf(input, e.dataField).value;
    ReviewItem(e.formField, FormattedAt(input, e.dataField), score.confidence, score.reasoning)
  }

  /** The form fields filled after the entries `es`, in map order. */
  function FormFieldsOf(es: seq<Mapping>, input: FormInput): map<string, Value>
  {
    if es == [] then map[]
    else
      var prev := FormFieldsOf(es[..|es| - 1], input);
      var e := es[|es| - 1];
      if Included(input, e.dataField) then prev[e.formField := FormattedAt(input, e.dataField)] else prev
  }

  /** The warnings pushed after the entries `es`. */
  function WarningsOf(es: seq<Mapping>, input: FormInput): seq<string>
  {
    if es == [] then []
    else
      var prev := WarningsOf(es[..|es| - 1], input);
      var e := es[|es| - 1];
      if Included(input, e.dataField) then prev else prev + [WarningText(e.formField)]
  }

  /** The review items pushed after the entries `es`. */
  function ReviewOf(es: seq<Mapping>, input: FormInput): seq<ReviewItem>
  {
    if es == [] then []
    else
      var prev := ReviewOf(es[..|es| - 1], input);
      var e := es[|es| - 1];
      if Reviewed(input, e.dataField) then prev + [ReviewItemFor(input, e)] else prev
  }

  /** What `formatForForm` returns. */
  function Format(input: FormInput): FormattedOutput
  {
    var reviewRequired := ReviewOf(FieldMap, input);
    var warnings := WarningsOf(FieldMap, input);
    FormattedOutput(FormFieldsOf(FieldMap, input), reviewRequired, warnings, |reviewRequired| == 0 && |warnings| == 0)
  }

  /** Runs through the field map once, filling the form, the review list and the warnings. */
  method FormatForForm(input: FormInput) returns (out: FormattedOutput)
    ensures out == Format(input)
  {
    var formFields: map<string, Value> := map[];
    var reviewRequired: seq<ReviewItem> := [];
    var warnings: seq<string> := [];
    var i := 0;
    while i < |FieldMap|
      invariant 0 <= i <= |FieldMap|
      invariant formFields == FormFieldsOf(FieldMap[..i], input)
      invariant reviewRequired == ReviewOf(FieldMap[..i], input)
      invariant warnings == WarningsOf(FieldMap[..i], input)
    {
      var e := FieldMap[i];
      assert FieldMap[..i + 1][..i] == FieldMap[..i];
      var value := Get(input.extracted, e.dataField);
      if !Truthy(value) || e.dataField !in input.validation || !input.validation[e.dataField].valid {
        warnings := warnings + [WarningText(e.formField)];
      } else {
        var formattedValue := FormatValue(e.dataField, value, input.validation[e.dataField], input.prims);
        formFields := formFields[e.formField := formattedValue];
        var score := ScoreOf(input, e.dataField);
        if score.Some? && score.value.confidence < 0.7 {
          reviewRequired := reviewRequired + [ReviewItem(e.formField, formattedValue, score.value.confidence, score.value.reasoning)];
        }
      }
      i := i + 1;
    }
    assert FieldMap[..|FieldMap|] == FieldMap;
    out := FormattedOutput(formFields, reviewRequired, warnings, |reviewRequired| == 0 && |warnings| == 0);
  }

  // ---------------------------------------------------------------------
  // What a run over any list of entries produces, one position at a time

  /** Every filled form field comes from some entry. */
  lemma {:induction false} FormFieldSource(es: seq<Mapping>, input: FormInput, k: string) returns (j: nat)
    requires k in FormFieldsOf(es, input)
    ensures j < |es| && es[j].formField == k && Included(input, es[j].dataField)
  {
    var n := |es| - 1;
    if es[n].formField == k && Included(input, es[n].dataField) {
      j := n;
    } else {
      j := FormFieldSource(es[..n], input, k);
    }
  }

  /** With distinct form fields, entry `j` is filled exactly when it is included, with its cleaned value. */
  lemma {:induction false} FormFieldAt(es: seq<Mapping>, input: FormInput, j: nat)
    requires DistinctForms(es) && j < |es|
    ensures es[j].formField in FormFieldsOf(es, input) <==> Included(input, es[j].dataField)
    ensures Included(input, es[j].dataField) ==> FormFieldsOf(es, input)[es[j].formField] == FormattedAt(input, es[j].dataField)
  {
    var n := |es| - 1;
    var pre := es[..n];
    if j < n {
      assert es[j] == pre[j];
      assert es[j].formField != es[n].formField;
      assert DistinctForms(pre);
      FormFieldAt(pre, input, j);
    } else if es[j].formField in FormFieldsOf(es, input) && !Included(input, es[j].dataField) {
      var i := FormFieldSource(pre, input, es[j].formField);
      assert false;
    }
  }

  /** Each entry either fills a new form field or adds one warning; no more items are reviewed than filled. */
  lemma {:induction false} FormFieldsCount(es: seq<Mapping>, input: FormInput)
    requires DistinctForms(es)
    ensures |FormFieldsOf(es, input)| + |WarningsOf(es, input)| == |es|
    ensures |ReviewOf(es, input)| <= |FormFieldsOf(es, input)|
  {
    if es != [] {
      var n := |es| - 1;
      var pre := es[..n];
      assert DistinctForms(pre);
      FormFieldsCount(pre, input);
      if es[n].formField in FormFieldsOf(pre, input) {
        var i := FormFieldSource(pre, input, es[n].formField);
        assert false;
      }
    }
  }

  /** Every warning names an entry that was not filled. */
  lemma {:induction false} WarningSource(es: seq<Mapping>, input: FormInput, i: nat) returns (j: nat)
    requires i < |WarningsOf(es, input)|
    ensures j < |es| && !Included(input, es[j].dataField) && WarningsOf(es, input)[i] == WarningText(es[j].formField)
  {
    var n := |es| - 1;
    var pre := es[..n];
    if i < |WarningsOf(pre, input)| {
      j := WarningSource(pre, input, i);
      assert es[j] == pre[j];
    } else {
      j := n;
    }
  }

  /** Every entry that is not filled leaves its warning. */
  lemma {:induction false} WarningAt(es: seq<Mapping>, input: FormInput, j: nat)
    requires j < |es| && !Included(input, es[j].dataField)
    ensures WarningText(es[j].formField) in WarningsOf(es, input)
  {
    var n := |es| - 1;
    if j < n {
      assert es[j] == es[..n][j];
      WarningAt(es[..n], input, j);
    }
  }

  /** Every review item is the item of an entry that needs review. */
  lemma {:induction false} ReviewSource(es: seq<Mapping>, input: FormInput, i: nat) returns (j: nat)
    requires i < |ReviewOf(es, input)|
    ensures j < |es| && Reviewed(input, es[j].dataField) && ReviewOf(es, input)[i] == ReviewItemFor(input, es[j])
  {
    var n := |es| - 1;
    var pre := es[..n];
    if i < |ReviewOf(pre, input)| {
      j := ReviewSource(pre, input, i);
      assert es[j] == pre[j];
    } else {
      j := n;
    }
  }

  /** Every entry that needs review has its item in the list. */
  lemma {:induction false} ReviewAt(es: seq<Mapping>, input: FormInput, j: nat)
    requires j < |es| && Reviewed(input, es[j].dataField)
    ensures ReviewItemFor(input, es[j]) in ReviewOf(es, input)
  {
    var n := |es| - 1;
    if j < n {
      assert es[j] == es[..n][j];
      ReviewAt(es[..n], input, j);
    }
  }

  /** Review items appear in the order of their entries. */
  lemma {:induction false} ReviewOrder(es: seq<Mapping>, input: FormInput, i: nat, k: nat) returns (a: nat, b: nat)
    requires i < k < |ReviewOf(es, input)|
    ensures a < b < |es|
    ensures es[a].formField == ReviewOf(es, input)[i].field && es[b].formField == ReviewOf(es, input)[k].field
  {
    var n := |es| - 1;
    var pre := es[..n];
    if k < |ReviewOf(pre, input)| {
      a, b := ReviewOrder(pre, input, i, k);
      assert es[a] == pre[a] && es[b] == pre[b];
    } else {
      a := ReviewSource(pre, input, i);
      assert es[a] == pre[a];
      b := n;
    }
  }

  lemma WarningTextInjective(a: string, b: string)
    requires WarningText(a) == WarningText(b)
    ensures a == b
  {
    assert a == WarningText(a)[..|a|];
    assert b == WarningText(b)[..|b|];
  }

  lemma FieldMapDistinct()
    ensures DistinctForms(FieldMap)
  {
  }

  // ---------------------------------------------------------------------
  // What `formatForForm` promises

  /**
   * Every form field is filled exactly when its source value is truthy and
   * was validated, and is otherwise reported by exactly one warning, never
   * both; so the filled fields and the warnings add up to six.  A filled
   * field holds its source value after clean-up, and nothing else is filled.
   */
  lemma FormPartition(input: FormInput)
    ensures var out := Format(input);
      && |out.formFields| + |out.warnings| == 6
      && (forall j :: 0 <= j < |FieldMap| ==>
            && (FieldMap[j].formField in out.formFields <==> Included(input, FieldMap[j].dataField))
            && (WarningText(FieldMap[j].formField) in out.warnings <==> !Included(input, FieldMap[j].dataField)))
      && (forall j :: 0 <= j < |FieldMap| && Included(input, FieldMap[j].dataField) ==>
            out.formFields[FieldMap[j].formField]
              == FormatValue(FieldMap[j].dataField, Get(input.extracted, FieldMap[j].dataField),
                             input.validation[FieldMap[j].dataField], input.prims))
      && (forall k :: k in out.formFields ==> exists j :: 0 <= j < |FieldMap| && FieldMap[j].formField == k)
  {
    var out := Format(input);
    FieldMapDistinct();
    FormFieldsCount(FieldMap, input);
    forall j | 0 <= j < |FieldMap|
      ensures FieldMap[j].formField in out.formFields <==> Included(input, FieldMap[j].dataField)
      ensures WarningText(FieldMap[j].formField) in out.warnings <==> !Included(input, FieldMap[j].dataField)
      ensures Included(input, FieldMap[j].dataField) ==> out.formFields[FieldMap[j].formField] == FormattedAt(input, FieldMap[j].dataField)
    {
      FormFieldAt(FieldMap, input, j);
      if Included(input, FieldMap[j].dataField) {
        if WarningText(FieldMap[j].formField) in out.warnings {
          var i :| 0 <= i < |out.warnings| && out.warnings[i] == WarningText(FieldMap[j].formField);
          var j' := WarningSource(FieldMap, input, i);
          WarningTextInjective(FieldMap[j].formField, FieldMap[j'].formField);
        }
      } else {
        WarningAt(FieldMap, input, j);
      }
    }
    forall k | k in out.formFields
      ensures exists j :: 0 <= j < |FieldMap| && FieldMap[j].formField == k
    {
      var j := FormFieldSource(FieldMap, input, k);
    }
  }

  /**
   * Review item `i` names a filled field whose score is below 0.7, and
   * carries the value that field was filled with and the score's
   * confidence and reasoning.
   */
  predicate ReviewEntryOk(input: FormInput, out: FormattedOutput, i: nat)
    requires i < |out.reviewRequired|
  {
    var item := out.reviewRequired[i];
    exists j :: 0 <= j < |FieldMap| && item.field == FieldMap[j].formField
      && Included(input, FieldMap[j].dataField)
      && ScoreOf(input, FieldMap[j].dataField).Some?
      && item.confidence == ScoreOf(input, FieldMap[j].dataField).value.confidence < 0.7
      && item.reasoning == ScoreOf(input, FieldMap[j].dataField).value.reasoning
      && item.field in out.formFields && item.value == out.formFields[item.field]
  }

  /** Form field `field` has an item in the review list. */
  predicate Listed(out: FormattedOutput, field: string)
  {
    exists i :: 0 <= i < |out.reviewRequired| && out.reviewRequired[i].field == field
  }

  /** Review items `i` and `k` name form fields in field-map order. */
  predicate InMapOrder(out: FormattedOutput, i: nat, k: nat)
    requires i < |out.reviewRequired| && k < |out.reviewRequired|
  {
    exists a, b :: 0 <= a < b < |FieldMap| && FieldMap[a].formField == out.reviewRequired[i].field
      && FieldMap[b].formField == out.reviewRequired[k].field
  }

  /** Every review item is a filled field scored below 0.7, with that field's value and score. */
  lemma ReviewEntries(input: FormInput)
    ensures forall i :: 0 <= i < |Format(input).reviewRequired| ==> ReviewEntryOk(input, Format(input), i)
  {
    var out := Format(input);
    FieldMapDistinct();
    forall i | 0 <= i < |out.reviewRequired|
      ensures ReviewEntryOk(input, out, i)
    {
      var j := ReviewSource(FieldMap, input, i);
      FormFieldAt(FieldMap, input, j);
    }
  }

  /** Every filled field whose score is below 0.7 is listed, and the list follows field-map order. */
  lemma ReviewCompleteAndOrdered(input: FormInput)
    ensures forall j :: 0 <= j < |FieldMap| && Reviewed(input, FieldMap[j].dataField) ==>
      Listed(Format(input), FieldMap[j].formField)
    ensures forall i, k :: 0 <= i < k < |Format(input).reviewRequired| ==> InMapOrder(Format(input), i, k)
  {
    var out := Format(input);
    forall j | 0 <= j < |FieldMap| && Reviewed(input, FieldMap[j].dataField)
      ensures Listed(out, FieldMap[j].formField)
    {
      ReviewAt(FieldMap, input, j);
      var i :| 0 <= i < |out.reviewRequired| && out.reviewRequired[i] == ReviewItemFor(input, FieldMap[j]);
    }
    forall i, k | 0 <= i < k < |out.reviewRequired|
      ensures InMapOrder(out, i, k)
    {
      var a, b := ReviewOrder(FieldMap, input, i, k);
    }
  }

  /** The output is ready to fill exactly when every field was filled and none needs review. */
  lemma ReadyToFill(input: FormInput)
    ensures Format(input).readyToFill <==>
      forall j :: 0 <= j < |FieldMap| ==> Included(input, FieldMap[j].dataField) && !Reviewed(input, FieldMap[j].dataField)
  {
    var out := Format(input);
    if !out.readyToFill {
      if |out.warnings| > 0 {
        var j := WarningSource(FieldMap, input, 0);
      } else {
        var j := ReviewSource(FieldMap, input, 0);
      }
    } else {
      forall j | 0 <= j < |FieldMap|
        ensures Included(input, FieldMap[j].dataField) && !Reviewed(input, FieldMap[j].dataField)
      {
        if !Included(input, FieldMap[j].dataField) {
          WarningAt(FieldMap, input, j);
        } else if Reviewed(input, FieldMap[j].dataField) {
          ReviewAt(FieldMap, input, j);
        }
      }
    }
  }

  /**
   * A field that failed validation is never listed for review, whatever its
   * score (the fallback scorer's 0.00 included): it only shows as a warning.
   */
  lemma InvalidNeverReviewed(input: FormInput, j: nat)
    requires j < |FieldMap|
    requires FieldMap[j].dataField in input.validation && !input.validation[FieldMap[j].dataField].valid
    ensures forall i :: 0 <= i < |Format(input).reviewRequired| ==> Format(input).reviewRequired[i].field != FieldMap[j].formField
    ensures WarningText(FieldMap[j].formField) in Format(input).warnings
  {
    var r := Format(input).reviewRequired;
    FieldMapDistinct();
    forall i | 0 <= i < |r|
      ensures r[i].field != FieldMap[j].formField
    {
      var j' := ReviewSource(FieldMap, input, i);
    }
    WarningAt(FieldMap, input, j);
  }

  // ---------------------------------------------------------------------
  // Summary

  datatype FormSummary = FormSummary(totalFields: nat, reviewRequired: nat, warnings: nat, readyToFill: bool)

  function GetFormSummary(out: FormattedOutput): FormSummary
  {
    FormSummary(|out.formFields|, |out.reviewRequired|, |out.warnings|, out.readyToFill)
  }

  /**
   * For a formatter output, the summary's filled fields and warnings add up
   * to six, no more fields need review than were filled, and it is ready to
   * fill exactly when both other counts are zero.
   */
  lemma FormSummaryCounts(input: FormInput)
    ensures var s := GetFormSummary(Format(input));
      && s.totalFields + s.warnings == |FieldMap|
      && s.reviewRequired <= s.totalFields
      && (s.readyToFill <==> s.reviewRequired == 0 && s.warnings == 0)
  {
    FieldMapDistinct();
    FormFieldsCount(FieldMap, input);
  }
}
