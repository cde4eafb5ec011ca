/** The backend form registry and submission ledger. The service loads its two
    JSON files whole at the start of every call and saves them whole at the end;
    here the two files are the fields `configs` and `submissions`. */
module Forms {
  import opened Outcomes
  import opened Seqs
  import opened FormTypes

  datatype FormsError = NotFound

  /** A field as a create or update request carries it: `order` may be absent. */
  datatype FieldInput = FieldInput(
    id: string,
    name: string,
    ftype: FieldType,
    labelText: string,
    placeholder: Option<string>,
    required: bool,
    options: Option<seq<string>>,
    order: Option<int>)

  datatype CreateConfigInput = CreateConfigInput(
    name: string,
    description: Option<string>,
    fields: seq<FieldInput>)

  /** An update request: every key may be absent (`undefined` or `null`). */
  datatype UpdateConfigInput = UpdateConfigInput(
    name: Option<string>,
    description: Option<string>,
    fields: Option<seq<FieldInput>>)

  datatype FormStats = FormStats(
    totalConfigs: nat,
    totalSubmissions: nat,
    submissionsByUser: map<string, nat>,
    submissionsByForm: map<string, nat>)

  function WithOrder(f: FieldInput, order: int): Field
  {
    Field(f.id, f.name, f.ftype, f.labelText, f.placeholder, f.required, f.options, order)
  }

  /** The stored field list of a request: each field keeps everything it was
      given, in the given sequence, and its `order` is the given one if any,
      else its position counted from 1. */
  function DeriveOrders(fields: seq<FieldInput>): (r: seq<Field>)
    ensures |r| == |fields|
    ensures forall i :: 0 <= i < |r| ==> WithOrder(fields[i], r[i].order) == r[i]
    ensures forall i :: 0 <= i < |r| && fields[i].order.Some? ==> r[i].order == fields[i].order.value
    ensures forall i :: 0 <= i < |r| && fields[i].order.None? ==> r[i].order == i + 1
  {
    seq(|fields|, i requires 0 <= i < |fields| => WithOrder(fields[i], GetOr(fields[i].order, i + 1)))
  }

  /** A request in which no field names its own order yields orders 1..N. */
  lemma DeriveOrdersContiguous(fields: seq<FieldInput>)
    requires forall i :: 0 <= i < |fields| ==> fields[i].order.None?
    ensures Contiguous(DeriveOrders(fields))
  {
  }

  /** The configuration a create request produces. */
  function NewConfig(input: CreateConfigInput, id: string, now: string): (c: FormConfig)
    ensures c.id == id && c.name == input.name && c.description == input.description
    ensures c.fields == DeriveOrders(input.fields)
    ensures c.createdAt == now && c.updatedAt == now
  {
    FormConfig(id, input.name, input.description, DeriveOrders(input.fields), now, now)
  }

  /** The configuration an update request makes of `existing`: `id` and
      `createdAt` are kept, each of `name`, `description` and `fields` is
      replaced only when the request provides it, and `updatedAt` is `now`. */
  function UpdatedConfig(existing: FormConfig, input: UpdateConfigInput, now: string): (c: FormConfig)
    ensures c.id == existing.id && c.createdAt == existing.createdAt && c.updatedAt == now
    ensures c.name == (if input.name.Some? then input.name.value else existing.name)
    ensures c.description == (if input.description.Some? then input.description else existing.description)
    ensures c.fields == (if input.fields.Some? then DeriveOrders(input.fields.value) else existing.fields)
  {
    FormConfig(
      existing.id,
      GetOr(input.name, existing.name),
      if input.description.Some? then input.description else existing.description,
      if input.fields.Some? then DeriveOrders(input.fields.value) else existing.fields,
      existing.createdAt,
      now)
  }

  function UserKey(s: FormSubmission): string
  {
    s.userId
  }

  function FormKey(s: FormSubmission): string
  {
    s.formConfigId
  }

  /** The per-user count dictionary holds, for each user with submissions, the
      length of that user's submission list, and no other key. */
  lemma TallyByUserCounts(subs: seq<FormSubmission>, userId: string)
    ensures userId in Tally(subs, UserKey) <==> |SubmissionsByUser(subs, userId)| > 0
    ensures userId in Tally(subs, UserKey) ==> Tally(subs, UserKey)[userId] == |SubmissionsByUser(subs, userId)|
  {
    CountIsFilterLength(subs, UserKey, userId, UserIs(userId));
  }

  /** The per-form count dictionary holds, for each form with submissions, the
      length of that form's submission list, and no other key. */
  lemma TallyByFormCounts(subs: seq<FormSubmission>, formConfigId: string)
    ensures formConfigId in Tally(subs, FormKey) <==> |SubmissionsByForm(subs, formConfigId)| > 0
    ensures formConfigId in Tally(subs, FormKey) ==> Tally(subs, FormKey)[formConfigId] == |SubmissionsByForm(subs, formConfigId)|
  {
    CountIsFilterLength(subs, FormKey, formConfigId, FormIs(formConfigId));
  }

  class FormsService {
    var configs: seq<FormConfig>
    var submissions: seq<FormSubmission>

    /** A service over the given contents of the two data files. */
    constructor(storedConfigs: seq<FormConfig>, storedSubmissions: seq<FormSubmission>)
      ensures configs == storedConfigs && submissions == storedSubmissions
    {
      configs := storedConfigs;
      submissions := storedSubmissions;
    }

    /** The first configuration with the id, or NotFound when none has it. */
    function FindConfigById(id: string): (r: Result<FormConfig, FormsError>)
      reads this
      ensures r.Err? <==> forall c :: c in configs ==> c.id != id
      ensures r.Err? ==> r.error == NotFound
      ensures r.Ok? ==> exists i :: 0 <= i < |configs| && configs[i] == r.value && r.value.id == id
                          && forall j :: 0 <= j < i ==> configs[j].id != id
    {
      var i := FindIndex(configs, ConfigIdIs(id));
      if i == -1 then Err(NotFound) else Ok(configs[i])
    }

    /** Appends one new configuration; nothing stored before changes. */
    method CreateConfig(input: CreateConfigInput, id: string, now: string) returns (c: FormConfig)
      modifies this
      ensures c == NewConfig(input, id, now)
      ensures configs == old(configs) + [c]
      ensures (forall x :: x in old(configs) ==> x.id != id) ==> FindConfigById(id) == Ok(c)
      ensures submissions == old(submissions)
    {
      c := NewConfig(input, id, now);
      configs := configs + [c];
    }

    /** Rewrites the first configuration with the id and nothing else, or fails
        with NotFound, storing nothing, when no configuration has the id. */
    method UpdateConfig(id: string, input: UpdateConfigInput, now: string) returns (r: Result<FormConfig, FormsError>)
      modifies this
      ensures var i := FindIndex(old(configs), ConfigIdIs(id));
              if i == -1 then r == Err(NotFound) && configs == old(configs)
              else r == Ok(UpdatedConfig(old(configs)[i], input, now)) && configs == old(configs)[i := r.value]
      ensures r.Ok? ==> FindConfigById(id) == r
      ensures submissions == old(submissions)
    {
      var i := FindIndex(configs, ConfigIdIs(id));
      if i == -1 {
        return Err(NotFound);
      }
      var updated := UpdatedConfig(configs[i], input, now);
      FindIndexAfterUpdate(configs, updated, ConfigIdIs(id));
      configs := configs[i := updated];
      r := Ok(updated);
    }

    /** Deletes the first configuration with the id, keeping the others in order
        (one fewer configuration carries the id afterwards), or fails with
        NotFound, storing nothing, when no configuration has the id. */
    method RemoveConfig(id: string) returns (r: Outcome<FormsError>)
      modifies this
      ensures var i := FindIndex(old(configs), ConfigIdIs(id));
              if i == -1 then r == Fail(NotFound) && configs == old(configs)
              else r == Pass && configs == old(configs)[..i] + old(configs)[i + 1..]
      ensures r.Pass? ==> |Filter(configs, ConfigIdIs(id))| == |Filter(old(configs), ConfigIdIs(id))| - 1
      ensures submissions == old(submissions)
    {
      var i := FindIndex(configs, ConfigIdIs(id));
      if i == -1 {
        return Fail(NotFound);
      }
      SpliceFilterLength(configs, i, ConfigIdIs(id));
      configs := configs[..i] + configs[i + 1..];
      r := Pass;
    }

    /** Appends one submission carrying the given user, form and data, after
        checking that the form exists; an unknown form fails with NotFound and
        nothing is stored. */
    method SubmitForm(userId: string, formConfigId: string, data: FormData, id: string, now: string)
      returns (r: Result<FormSubmission, FormsError>)
      modifies this
      ensures FindConfigById(formConfigId).Err? ==> r == Err(NotFound) && submissions == old(submissions)
      ensures FindConfigById(formConfigId).Ok? ==>
                r == Ok(FormSubmission(id, userId, formConfigId, data, now))
                && submissions == old(submissions) + [r.value]
      ensures configs == old(configs)
    {
      var found := FindConfigById(formConfigId);
      if found.Err? {
        return Err(NotFound);
      }
      var s := FormSubmission(id, userId, formConfigId, data, now);
      submissions := submissions + [s];
      r := Ok(s);
    }

    /** The totals, and the per-user and per-form submission counts that a
        `forEach` over the ledger fills in; each dictionary's counts add up to
        the total number of submissions. */
    method GetFormStats() returns (stats: FormStats)
      ensures stats.totalConfigs == |configs| && stats.totalSubmissions == |submissions|
      ensures stats.submissionsByUser == Tally(submissions, UserKey)
      ensures stats.submissionsByForm == Tally(submissions, FormKey)
      ensures MapSum(stats.submissionsByUser) == stats.totalSubmissions
      ensures MapSum(stats.submissionsByForm) == stats.totalSubmissions
    {
      var byUser: map<string, nat> := map[];
      var byForm: map<string, nat> := map[];
      var i := 0;
      while i < |submissions|
        invariant 0 <= i <= |submissions|
        invariant byUser == Tally(submissions[..i], UserKey)
        invariant byForm == Tally(submissions[..i], FormKey)
      {
        var s := submissions[i];
        byUser := byUser[s.userId := (if s.userId in byUser then byUser[s.userId] else 0) + 1];
        byForm := byForm[s.formConfigId := (if s.formConfigId in byForm then byForm[s.formConfigId] else 0) + 1];
        assert submissions[..i + 1] == submissions[..i] + [s];
        TallySnoc(submissions[..i], s, UserKey);
        TallySnoc(submissions[..i], s, FormKey);
        i := i + 1;
      }
      assert submissions[..i] == submissions;
      TallySum(submissions, UserKey);
      TallySum(submissions, FormKey);
      stats := FormStats(|configs|, |submissions|, byUser, byForm);
    }
  }
}
