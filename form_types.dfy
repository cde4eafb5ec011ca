/** The form records the backend service and the frontend store share: field
    definitions, form configurations and submissions, and the submission
    queries both sides run (by user, by form, a field's value history). */
module FormTypes {
  import opened Outcomes
  import opened Seqs

  datatype FieldType = Text | Number | Select | Checkbox | Password

  /** A value under a field name in a submission's `data`. `Undefined` is also
      what reading a missing key yields. Numbers are integers in this model. */
  datatype Value = Undefined | Null | Str(s: string) | Num(n: int) | Bool(b: bool) | Strs(items: seq<string>)

  /** One field of a form; `order` is its display position. */
  datatype Field = Field(
    id: string,
    name: string,
    ftype: FieldType,
    labelText: string,
    placeholder: Option<string>,
    required: bool,
    options: Option<seq<string>>,
    order: int)

  datatype FormConfig = FormConfig(
    id: string,
    name: string,
    description: Option<string>,
    fields: seq<Field>,
    createdAt: string,
    updatedAt: string)

  /** A submission's `data`: field name to entered value. */
  type FormData = map<string, Value>

  datatype FormSubmission = FormSubmission(
    id: string,
    userId: string,
    formConfigId: string,
    data: FormData,
    timestamp: string)

  /** `data[name]`, which is `undefined` for a missing key. */
  function Lookup(data: FormData, name: string): Value
  {
    if name in data then data[name] else Undefined
  }

  /** The test `value !== undefined && value !== null && value !== ''`; note that
      `0` and `false` pass it. */
  predicate Present(v: Value)
  {
    v != Undefined && v != Null && v != Str("")
  }

  /** Field orders are exactly 1..N, in list order. */
  predicate Contiguous(fields: seq<Field>)
  {
    forall i :: 0 <= i < |fields| ==> fields[i].order == i + 1
  }

  function ConfigIdIs(id: string): FormConfig -> bool
  {
    (c: FormConfig) => c.id == id
  }

  // ---------------------------------------------------------------------------
  // submission queries

  function UserIs(userId: string): FormSubmission -> bool
  {
    (s: FormSubmission) => s.userId == userId
  }

  function FormIs(formConfigId: string): FormSubmission -> bool
  {
    (s: FormSubmission) => s.formConfigId == formConfigId
  }

  function UserAndFormAre(userId: string, formConfigId: string): FormSubmission -> bool
  {
    (s: FormSubmission) => s.userId == userId && s.formConfigId == formConfigId
  }

  /** The submissions of one user, in submission order. */
  function SubmissionsByUser(subs: seq<FormSubmission>, userId: string): (r: seq<FormSubmission>)
    ensures forall s :: s in r <==> s in subs && s.userId == userId
  {
    Filter(subs, UserIs(userId))
  }

  /** The submissions of one form, in submission order. */
  function SubmissionsByForm(subs: seq<FormSubmission>, formConfigId: string): (r: seq<FormSubmission>)
    ensures forall s :: s in r <==> s in subs && s.formConfigId == formConfigId
  {
    Filter(subs, FormIs(formConfigId))
  }

  /** The submissions of one user for one form, in submission order. */
  function SubmissionsByUserAndForm(subs: seq<FormSubmission>, userId: string, formConfigId: string): (r: seq<FormSubmission>)
    ensures forall s :: s in r <==> s in subs && s.userId == userId && s.formConfigId == formConfigId
  {
    Filter(subs, UserAndFormAre(userId, formConfigId))
  }

  /** The by-user-and-form query is the by-user query narrowed to the form, and
      the by-form query narrowed to the user: an order-preserving subsequence of each. */
  lemma ByUserAndFormNarrowsBoth(subs: seq<FormSubmission>, userId: string, formConfigId: string)
    ensures SubmissionsByUserAndForm(subs, userId, formConfigId)
         == Filter(SubmissionsByUser(subs, userId), FormIs(formConfigId))
    ensures SubmissionsByUserAndForm(subs, userId, formConfigId)
         == Filter(SubmissionsByForm(subs, formConfigId), UserIs(userId))
  {
    FilterFilter(subs, UserIs(userId), FormIs(formConfigId), UserAndFormAre(userId, formConfigId));
    FilterFilter(subs, FormIs(formConfigId), UserIs(userId), UserAndFormAre(userId, formConfigId));
  }

  /** Each submission's value under `name`, one per submission. */
  function Project(subs: seq<FormSubmission>, name: string): (r: seq<Value>)
    ensures |r| == |subs|
    ensures forall i :: 0 <= i < |subs| ==> r[i] == Lookup(subs[i].data, name)
  {
    seq(|subs|, i requires 0 <= i < |subs| => Lookup(subs[i].data, name))
  }

  /** A user's history for one field: their submissions' values under
      `fieldName`, oldest first, with `undefined`, `null` and `''` dropped. */
  function FieldHistory(subs: seq<FormSubmission>, userId: string, fieldName: string): (r: seq<Value>)
    ensures |r| <= |SubmissionsByUser(subs, userId)|
    ensures forall v :: v in r ==> Present(v)
  {
    Filter(Project(SubmissionsByUser(subs, userId), fieldName), Present)
  }

  /** Every value in a user's field history was entered by that user under that
      field name, and every present value they entered is in it. */
  lemma FieldHistoryMembers(subs: seq<FormSubmission>, userId: string, fieldName: string, v: Value)
    ensures v in FieldHistory(subs, userId, fieldName)
        <==> Present(v) && exists s :: s in subs && s.userId == userId && Lookup(s.data, fieldName) == v
  {
    var mine := SubmissionsByUser(subs, userId);
    var projected := Project(mine, fieldName);
    if v in FieldHistory(subs, userId, fieldName) {
      assert v in projected;
      var i :| 0 <= i < |projected| && projected[i] == v;
      assert mine[i] in mine;
    }
    if Present(v) && exists s :: s in subs && s.userId == userId && Lookup(s.data, fieldName) == v {
      var s :| s in subs && s.userId == userId && Lookup(s.data, fieldName) == v;
      assert s in mine;
      var i :| 0 <= i < |mine| && mine[i] == s;
      assert projected[i] == v;
    }
  }

  /** Projection commutes with concatenation. */
  lemma ProjectAppend(a: seq<FormSubmission>, b: seq<FormSubmission>, name: string)
    ensures Project(a + b, name) == Project(a, name) + Project(b, name)
  {
    var l, r := Project(a + b, name), Project(a, name) + Project(b, name);
    assert |l| == |r|;
    forall i | 0 <= i < |l| ensures l[i] == r[i] {
      if i < |a| { assert (a + b)[i] == a[i]; } else { assert (a + b)[i] == b[i - |a|]; }
    }
  }

  /** A new submission extends its user's field history by its value under the
      field, at the end, exactly when that value is present; other users'
      histories do not change. */
  lemma {:induction false} FieldHistoryAppend(subs: seq<FormSubmission>, s: FormSubmission, userId: string, fieldName: string)
    ensures FieldHistory(subs + [s], userId, fieldName)
         == FieldHistory(subs, userId, fieldName)
            + (if s.userId == userId && Present(Lookup(s.data, fieldName)) then [Lookup(s.data, fieldName)] else [])
  {
    var mine := SubmissionsByUser(subs, userId);
    assert (subs + [s])[..|subs|] == subs;
    if s.userId == userId {
      var v := Lookup(s.data, fieldName);
      assert SubmissionsByUser(subs + [s], userId) == mine + [s];
      ProjectAppend(mine, [s], fieldName);
      assert Project([s], fieldName) == [v];
      var pm := Project(mine, fieldName);
      assert (pm + [v])[..|pm|] == pm;
    } else {
      assert SubmissionsByUser(subs + [s], userId) == mine;
    }
  }
}
