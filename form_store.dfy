/** The frontend form store: the form configurations of the session, the
    selected one, the values entered so far, and the submissions made. Every
    edit of the selected form's field list goes through `UpdateFormConfig`. */
module FormStores {
  import opened Outcomes
  import opened Seqs
  import opened FormTypes

  datatype FormStoreError = NoFormSelected

  /** A `Partial<FormConfig>` update; `updatedAt` is overwritten in any case. */
  datatype ConfigPatch = ConfigPatch(
    id: Option<string>,
    name: Option<string>,
    description: Option<string>,
    fields: Option<seq<Field>>,
    createdAt: Option<string>)

  /** A `Partial<FormField>` update. */
  datatype FieldPatch = FieldPatch(
    id: Option<string>,
    name: Option<string>,
    ftype: Option<FieldType>,
    labelText: Option<string>,
    placeholder: Option<string>,
    required: Option<bool>,
    options: Option<seq<string>>,
    order: Option<int>)

  /** A new configuration without its id and timestamps. */
  datatype ConfigDraft = ConfigDraft(name: string, description: Option<string>, fields: seq<Field>)

  /** The `{ fields }` update every field-list edit sends. */
  function FieldsOnly(fields: seq<Field>): ConfigPatch
  {
    ConfigPatch(None, None, None, Some(fields), None)
  }

  /** `{...config, ...updates, updatedAt: now}`: every provided key replaces the
      configuration's, the others are kept. */
  function PatchConfig(c: FormConfig, p: ConfigPatch, now: string): (r: FormConfig)
    ensures r.id == (if p.id.Some? then p.id.value else c.id)
    ensures r.name == (if p.name.Some? then p.name.value else c.name)
    ensures r.description == (if p.description.Some? then p.description else c.description)
    ensures r.fields == (if p.fields.Some? then p.fields.value else c.fields)
    ensures r.createdAt == (if p.createdAt.Some? then p.createdAt.value else c.createdAt)
    ensures r.updatedAt == now
  {
    FormConfig(
      GetOr(p.id, c.id),
      GetOr(p.name, c.name),
      if p.description.Some? then p.description else c.description,
      GetOr(p.fields, c.fields),
      GetOr(p.createdAt, c.createdAt),
      now)
  }

  /** `{...field, ...updates}`: every provided key replaces the field's. */
  function PatchField(f: Field, p: FieldPatch): (r: Field)
    ensures r.id == (if p.id.Some? then p.id.value else f.id)
    ensures r.name == (if p.name.Some? then p.name.value else f.name)
    ensures r.ftype == (if p.ftype.Some? then p.ftype.value else f.ftype)
    ensures r.labelText == (if p.labelText.Some? then p.labelText.value else f.labelText)
    ensures r.placeholder == (if p.placeholder.Some? then p.placeholder else f.placeholder)
    ensures r.required == (if p.required.Some? then p.required.value else f.required)
    ensures r.options == (if p.options.Some? then p.options else f.options)
    ensures r.order == (if p.order.Some? then p.order.value else f.order)
  {
    Field(
      GetOr(p.id, f.id),
      GetOr(p.name, f.name),
      GetOr(p.ftype, f.ftype),
      GetOr(p.labelText, f.labelText),
      if p.placeholder.Some? then p.placeholder else f.placeholder,
      GetOr(p.required, f.required),
      if p.options.Some? then p.options else f.options,
      GetOr(p.order, f.order))
  }

  // ---------------------------------------------------------------------------
  // updateFormConfig's effect

  /** The configuration list after `updateFormConfig(formId, updates)`: the
      first configuration with the id is patched and no other entry changes;
      an unknown id changes nothing. */
  function ConfigsAfterUpdate(configs: seq<FormConfig>, formId: string, p: ConfigPatch, now: string): (r: seq<FormConfig>)
    ensures |r| == |configs|
    ensures FindIndex(configs, ConfigIdIs(formId)) == -1 ==> r == configs
    ensures var i := FindIndex(configs, ConfigIdIs(formId));
            i >= 0 ==> r[i] == PatchConfig(configs[i], p, now)
                       && forall j :: 0 <= j < |r| && j != i ==> r[j] == configs[j]
  {
    var i := FindIndex(configs, ConfigIdIs(formId));
    if i == -1 then configs else configs[i := PatchConfig(configs[i], p, now)]
  }

  /** The selected form after `updateFormConfig(formId, updates)`: re-pointed to
      the patched entry when it had that id and the id was found, else kept. */
  function CurrentAfterUpdate(configs: seq<FormConfig>, current: Option<FormConfig>, formId: string, p: ConfigPatch, now: string)
    : (r: Option<FormConfig>)
    ensures var i := FindIndex(configs, ConfigIdIs(formId));
            if i >= 0 && current.Some? && current.value.id == formId
            then r == Some(ConfigsAfterUpdate(configs, formId, p, now)[i])
            else r == current
  {
    var i := FindIndex(configs, ConfigIdIs(formId));
    if i != -1 && current.Some? && current.value.id == formId
    then Some(PatchConfig(configs[i], p, now))
    else current
  }

  // ---------------------------------------------------------------------------
  // field-list edits

  function FieldIdIs(id: string): Field -> bool
  {
    (f: Field) => f.id == id
  }

  function FieldIdIsNot(id: string): Field -> bool
  {
    (f: Field) => f.id != id
  }

  /** addField's list: the old fields and, after them, the new field with the
      given id and order `length + 1`. Orders 1..N become 1..N+1. */
  function AppendField(fields: seq<Field>, field: Field, newId: string): (r: seq<Field>)
    ensures |r| == |fields| + 1 && r[..|fields|] == fields
    ensures r[|fields|] == field.(id := newId, order := |fields| + 1)
    ensures Contiguous(fields) ==> Contiguous(r)
  {
    fields + [field.(id := newId, order := |fields| + 1)]
  }

  /** The fields in the same sequence with orders 1..N. */
  function Renumber(fields: seq<Field>): (r: seq<Field>)
    ensures |r| == |fields| && Contiguous(r)
    ensures forall i :: 0 <= i < |r| ==> r[i] == fields[i].(order := i + 1)
  {
    seq(|fields|, i requires 0 <= i < |fields| => fields[i].(order := i + 1))
  }

  /** removeField's list: every field without the id, in the original relative
      order, renumbered 1..N; as many fields fewer as carried the id. */
  function WithoutField(fields: seq<Field>, fieldId: string): (r: seq<Field>)
    ensures Contiguous(r)
    ensures |r| == |Filter(fields, FieldIdIsNot(fieldId))|
    ensures |r| == |fields| - |Filter(fields, FieldIdIs(fieldId))|
    ensures forall i :: 0 <= i < |r| ==> r[i] == Filter(fields, FieldIdIsNot(fieldId))[i].(order := i + 1)
    ensures forall i :: 0 <= i < |r| ==> r[i].id != fieldId
  {
    FilterSplit(fields, FieldIdIs(fieldId), FieldIdIsNot(fieldId));
    var kept := Filter(fields, FieldIdIsNot(fieldId));
    assert forall i :: 0 <= i < |kept| ==> kept[i] in kept;
    Renumber(kept)
  }

  /** `updates` applied to every field with the id; the count and every other
      field are unchanged. */
  function PatchFields(fields: seq<Field>, fieldId: string, p: FieldPatch): (r: seq<Field>)
    ensures |r| == |fields|
    ensures forall i :: 0 <= i < |r| && fields[i].id != fieldId ==> r[i] == fields[i]
    ensures forall i :: 0 <= i < |r| && fields[i].id == fieldId ==> r[i] == PatchField(fields[i], p)
  {
    seq(|fields|, i requires 0 <= i < |fields| => if fields[i].id == fieldId then PatchField(fields[i], p) else fields[i])
  }

  /** What `new Map(fields.map(f => [f.id, f])).get(id)` yields: the LAST field
      with the id, since later entries overwrite earlier ones. */
  function LastWithId(fields: seq<Field>, id: string): (r: Option<Field>)
    ensures r.None? <==> forall f :: f in fields ==> f.id != id
    ensures r.Some? ==> exists i :: 0 <= i < |fields| && fields[i] == r.value && r.value.id == id
                          && forall j :: i < j < |fields| ==> fields[j].id != id
    decreases |fields|
  {
    if fields == [] then None
    else if fields[|fields| - 1].id == id then Some(fields[|fields| - 1])
    else
      assert fields == fields[..|fields| - 1] + [fields[|fields| - 1]];
      LastWithId(fields[..|fields| - 1], id)
  }

  function KnownIn(fields: seq<Field>): string -> bool
  {
    (id: string) => LastWithId(fields, id).Some?
  }

  /** `ids.map(id => fieldMap.get(id)).filter(defined)`: one field per known id,
      in the order of `ids`; unknown ids are dropped and repeated ids repeat. */
  function Resolve(fields: seq<Field>, ids: seq<string>): (r: seq<Field>)
    ensures |r| == |Filter(ids, KnownIn(fields))|
    ensures forall i :: 0 <= i < |r| ==> r[i].id == Filter(ids, KnownIn(fields))[i] && r[i] in fields
    ensures forall i :: 0 <= i < |r| ==> LastWithId(fields, r[i].id) == Some(r[i])
    decreases |ids|
  {
    if ids == [] then []
    else
      var rest := Resolve(fields, ids[..|ids| - 1]);
      match LastWithId(fields, ids[|ids| - 1])
      case Some(f) => rest + [f]
      case None => rest
  }

  /** reorderFields' list: the known ids' fields in the given id order,
      renumbered 1..k. */
  function Reordered(fields: seq<Field>, ids: seq<string>): (r: seq<Field>)
    ensures Contiguous(r)
    ensures |r| == |Filter(ids, KnownIn(fields))| && |r| <= |ids|
    ensures forall i :: 0 <= i < |r| ==> r[i].id == Filter(ids, KnownIn(fields))[i]
    ensures forall i :: 0 <= i < |r| ==> r[i] == Resolve(fields, ids)[i].(order := i + 1) && Resolve(fields, ids)[i] in fields
    ensures forall i :: 0 <= i < |r| ==> LastWithId(fields, r[i].id).Some? && r[i] == LastWithId(fields, r[i].id).value.(order := i + 1)
  {
    Renumber(Resolve(fields, ids))
  }

  /** When every given id names a field, the reordered list follows `ids` exactly. */
  lemma ReorderedAllKnown(fields: seq<Field>, ids: seq<string>)
    requires forall id :: id in ids ==> exists f :: f in fields && f.id == id
    ensures |Reordered(fields, ids)| == |ids|
    ensures forall i :: 0 <= i < |ids| ==> Reordered(fields, ids)[i].id == ids[i]
  {
    forall id | id in ids ensures KnownIn(fields)(id) {
      var f :| f in fields && f.id == id;
    }
    FilterAll(ids, KnownIn(fields));
  }

  // ---------------------------------------------------------------------------
  // sortedFields

  predicate SortedByOrder(fields: seq<Field>)
  {
    forall i, j :: 0 <= i < j < |fields| ==> fields[i].order <= fields[j].order
  }

  /** Inserts `f` before the first field of a sorted list whose order is not
      smaller; fields of equal order therefore keep their relative position. */
  function InsertByOrder(f: Field, fields: seq<Field>): (r: seq<Field>)
    requires SortedByOrder(fields)
    ensures forall x :: x in r <==> x == f || x in fields
    ensures SortedByOrder(r)
    ensures multiset(r) == multiset(fields) + multiset{f}
    decreases |fields|
  {
    if fields == [] then [f]
    else if f.order <= fields[0].order then [f] + fields
    else
      var head, rest := fields[0], InsertByOrder(f, fields[1..]);
      assert fields == [head] + fields[1..];
      assert forall x :: x in rest ==> head.order <= x.order;
      [head] + rest
  }

  /** `fields.slice().sort((a, b) => a.order - b.order)`: the same fields,
      ascending by order. */
  function SortByOrder(fields: seq<Field>): (r: seq<Field>)
    ensures SortedByOrder(r)
    ensures multiset(r) == multiset(fields)
    decreases |fields|
  {
    if fields == [] then []
    else
      assert fields == [fields[0]] + fields[1..];
      InsertByOrder(fields[0], SortByOrder(fields[1..]))
  }

  function OrderIs(o: int): Field -> bool
  {
    (f: Field) => f.order == o
  }

  /** A field of larger order than the head goes into the rest of the list. */
  lemma InsertByOrderPastHead(f: Field, fields: seq<Field>)
    requires SortedByOrder(fields) && fields != [] && f.order > fields[0].order
    ensures SortedByOrder(fields[1..])
    ensures InsertByOrder(f, fields) == [fields[0]] + InsertByOrder(f, fields[1..])
  {
  }

  /** Inserting keeps the fields of each order in the sequence they would have
      with the new field put first: it goes in front of its equals. */
  lemma {:induction false} InsertByOrderStable(f: Field, fields: seq<Field>, o: int)
    requires SortedByOrder(fields)
    ensures Filter(InsertByOrder(f, fields), OrderIs(o)) == Filter([f] + fields, OrderIs(o))
    decreases |fields|
  {
    if fields != [] && f.order > fields[0].order {
      var head, tail, p := fields[0], fields[1..], OrderIs(o);
      InsertByOrderPastHead(f, fields);
      calc {
        Filter(InsertByOrder(f, fields), p);
        Filter([head] + InsertByOrder(f, tail), p);
        { FilterCons(head, InsertByOrder(f, tail), p); }
        (if p(head) then [head] else []) + Filter(InsertByOrder(f, tail), p);
        { InsertByOrderStable(f, tail, o); }
        (if p(head) then [head] else []) + Filter([f] + tail, p);
        { FilterCons(head, [f] + tail, p); }
        Filter([head] + ([f] + tail), p);
        { FilterSwap(head, f, tail, p); }
        Filter([f] + ([head] + tail), p);
        { assert [head] + tail == fields; }
        Filter([f] + fields, p);
      }
    }
  }

  /** The sort is stable: for every order value, the fields with that order
      come out in the sequence they went in. */
  lemma {:induction false} SortByOrderStable(fields: seq<Field>)
    ensures forall o :: Filter(SortByOrder(fields), OrderIs(o)) == Filter(fields, OrderIs(o))
    decreases |fields|
  {
    if fields != [] {
      var head, tail := fields[0], fields[1..];
      assert fields == [head] + tail;
      SortByOrderStable(tail);
      forall o ensures Filter(SortByOrder(fields), OrderIs(o)) == Filter(fields, OrderIs(o)) {
        InsertByOrderStable(head, SortByOrder(tail), o);
        FilterCons(head, SortByOrder(tail), OrderIs(o));
        FilterCons(head, tail, OrderIs(o));
      }
    }
  }

  // ---------------------------------------------------------------------------
  // isFormValid

  /** Every required field has a present value under its name. */
  predicate RequiredPresent(fields: seq<Field>, data: FormData)
  {
    forall f :: f in fields && f.required ==> Present(Lookup(data, f.name))
  }

  /** Entering a present value never makes a valid form invalid. */
  lemma RequiredPresentAfterSet(fields: seq<Field>, data: FormData, name: string, v: Value)
    requires RequiredPresent(fields, data) && Present(v)
    ensures RequiredPresent(fields, data[name := v])
  {
  }

  /** Clearing the value of a required field makes the form invalid. */
  lemma RequiredMissingAfterClear(fields: seq<Field>, data: FormData, f: Field, v: Value)
    requires f in fields && f.required && !Present(v)
    ensures !RequiredPresent(fields, data[f.name := v])
  {
  }

  /** With no values entered, a form is valid exactly when no field is required. */
  lemma RequiredPresentOnEmpty(fields: seq<Field>)
    ensures RequiredPresent(fields, map[]) <==> forall f :: f in fields ==> !f.required
  {
  }

  // ---------------------------------------------------------------------------
  // the store

  function DefaultFields(): (r: seq<Field>)
    ensures |r| == 4 && Contiguous(r)
  {
    [
      Field("field_1", "username", Text, "用户名", Some("请输入用户名"), true, None, 1),
      Field("field_2", "email", Text, "邮箱", Some("请输入邮箱地址"), true, None, 2),
      Field("field_3", "age", Number, "年龄", Some("请输入年龄"), false, None, 3),
      Field("field_4", "gender", Select, "性别", None, false, Some(["男", "女", "其他"]), 4)
    ]
  }

  function DefaultForm(now: string): (c: FormConfig)
    ensures c.id == "default_form" && c.fields == DefaultFields()
  {
    FormConfig("default_form", "默认表单", Some("示例表单配置"), DefaultFields(), now, now)
  }

  class FormStore {
    var formConfigs: seq<FormConfig>
    var currentFormConfig: Option<FormConfig>
    var formData: FormData
    var submissions: seq<FormSubmission>
    var isLoading: bool
    var error: Option<string>

    /** The store starts with the default form, selected. */
    constructor(now: string)
      ensures formConfigs == [DefaultForm(now)] && currentFormConfig == Some(DefaultForm(now))
      ensures formData == map[] && submissions == [] && !isLoading && error.None?
    {
      formConfigs := [DefaultForm(now)];
      currentFormConfig := Some(DefaultForm(now));
      formData := map[];
      submissions := [];
      isLoading := false;
      error := None;
    }

    /** Appends the new configuration and selects it. */
    method CreateFormConfig(draft: ConfigDraft, id: string, now: string)
      modifies this
      ensures formConfigs == old(formConfigs) + [FormConfig(id, draft.name, draft.description, draft.fields, now, now)]
      ensures currentFormConfig == Some(formConfigs[|formConfigs| - 1])
      ensures formData == old(formData) && submissions == old(submissions)
      ensures !isLoading && error.None?
    {
      isLoading := true;
      error := None;
      var newForm := FormConfig(id, draft.name, draft.description, draft.fields, now, now);
      formConfigs := formConfigs + [newForm];
      currentFormConfig := Some(newForm);
      isLoading := false;
    }

    /** Patches the first configuration with the id (nothing, for an unknown
        id) and re-points the selection to it when the selection had that id. */
    method UpdateFormConfig(formId: string, updates: ConfigPatch, now: string)
      modifies this
      ensures formConfigs == ConfigsAfterUpdate(old(formConfigs), formId, updates, now)
      ensures currentFormConfig == CurrentAfterUpdate(old(formConfigs), old(currentFormConfig), formId, updates, now)
      ensures formData == old(formData) && submissions == old(submissions)
      ensures !isLoading && error.None?
    {
      isLoading := true;
      error := None;
      var index := FindIndex(formConfigs, ConfigIdIs(formId));
      if index != -1 {
        formConfigs := formConfigs[index := PatchConfig(formConfigs[index], updates, now)];
        if currentFormConfig.Some? && currentFormConfig.value.id == formId {
          currentFormConfig := Some(formConfigs[index]);
        }
      }
      isLoading := false;
    }

    /** Selects the first configuration with the id and clears the entered
        values; an unknown id changes nothing. */
    method SelectFormConfig(formId: string)
      modifies this
      ensures Find(old(formConfigs), ConfigIdIs(formId)).None? ==>
                currentFormConfig == old(currentFormConfig) && formData == old(formData)
      ensures Find(old(formConfigs), ConfigIdIs(formId)).Some? ==>
                currentFormConfig == Find(old(formConfigs), ConfigIdIs(formId)) && formData == map[]
      ensures formConfigs == old(formConfigs) && submissions == old(submissions)
      ensures isLoading == old(isLoading) && error == old(error)
    {
      var form := Find(formConfigs, ConfigIdIs(formId));
      if form.Some? {
        currentFormConfig := form;
        ResetFormData();
      }
    }

    /** Appends a field to the selected form; a no-op when none is selected. */
    method AddField(field: Field, newId: string, now: string)
      modifies this
      ensures old(currentFormConfig).None? ==> unchanged(this)
      ensures old(currentFormConfig).Some? ==>
                var c := old(currentFormConfig).value;
                var updates := FieldsOnly(AppendField(c.fields, field, newId));
                formConfigs == ConfigsAfterUpdate(old(formConfigs), c.id, updates, now)
                && currentFormConfig == CurrentAfterUpdate(old(formConfigs), old(currentFormConfig), c.id, updates, now)
                && !isLoading && error.None?
      ensures old(currentFormConfig).Some? && FindIndex(old(formConfigs), ConfigIdIs(old(currentFormConfig).value.id)) >= 0 ==>
                currentFormConfig.Some?
                && currentFormConfig.value.fields == AppendField(old(currentFormConfig).value.fields, field, newId)
      ensures formData == old(formData) && submissions == old(submissions)
    {
      if currentFormConfig.None? {
        return;
      }
      var c := currentFormConfig.value;
      UpdateFormConfig(c.id, FieldsOnly(AppendField(c.fields, field, newId)), now);
    }

    /** Patches every field of the selected form that has the id; a no-op when
        none is selected. */
    method UpdateField(fieldId: string, updates: FieldPatch, now: string)
      modifies this
      ensures old(currentFormConfig).None? ==> unchanged(this)
      ensures old(currentFormConfig).Some? ==>
                var c := old(currentFormConfig).value;
                var patch := FieldsOnly(PatchFields(c.fields, fieldId, updates));
                formConfigs == ConfigsAfterUpdate(old(formConfigs), c.id, patch, now)
                && currentFormConfig == CurrentAfterUpdate(old(formConfigs), old(currentFormConfig), c.id, patch, now)
                && !isLoading && error.None?
      ensures old(currentFormConfig).Some? && FindIndex(old(formConfigs), ConfigIdIs(old(currentFormConfig).value.id)) >= 0 ==>
                currentFormConfig.Some?
                && currentFormConfig.value.fields == PatchFields(old(currentFormConfig).value.fields, fieldId, updates)
      ensures formData == old(formData) && submissions == old(submissions)
    {
      if currentFormConfig.None? {
        return;
      }
      var c := currentFormConfig.value;
      UpdateFormConfig(c.id, FieldsOnly(PatchFields(c.fields, fieldId, updates)), now);
    }

    /** Drops every field of the selected form that has the id and renumbers
        the rest 1..N; a no-op when none is selected. */
    method RemoveField(fieldId: string, now: string)
      modifies this
      ensures old(currentFormConfig).None? ==> unchanged(this)
      ensures old(currentFormConfig).Some? ==>
                var c := old(currentFormConfig).value;
                var patch := FieldsOnly(WithoutField(c.fields, fieldId));
                formConfigs == ConfigsAfterUpdate(old(formConfigs), c.id, patch, now)
                && currentFormConfig == CurrentAfterUpdate(old(formConfigs), old(currentFormConfig), c.id, patch, now)
                && !isLoading && error.None?
      ensures old(currentFormConfig).Some? && FindIndex(old(formConfigs), ConfigIdIs(old(currentFormConfig).value.id)) >= 0 ==>
                currentFormConfig.Some?
                && currentFormConfig.value.fields == WithoutField(old(currentFormConfig).value.fields, fieldId)
      ensures formData == old(formData) && submissions == old(submissions)
    {
      if currentFormConfig.None? {
        return;
      }
      var c := currentFormConfig.value;
      UpdateFormConfig(c.id, FieldsOnly(WithoutField(c.fields, fieldId)), now);
    }

    /** Rebuilds the selected form's field list in the given id order, dropping
        unknown ids, renumbered 1..k; a no-op when none is selected. */
    method ReorderFields(fieldIds: seq<string>, now: string)
      modifies this
      ensures old(currentFormConfig).None? ==> unchanged(this)
      ensures old(currentFormConfig).Some? ==>
                var c := old(currentFormConfig).value;
                var patch := FieldsOnly(Reordered(c.fields, fieldIds));
                formConfigs == ConfigsAfterUpdate(old(formConfigs), c.id, patch, now)
                && currentFormConfig == CurrentAfterUpdate(old(formConfigs), old(currentFormConfig), c.id, patch, now)
                && !isLoading && error.None?
      ensures old(currentFormConfig).Some? && FindIndex(old(formConfigs), ConfigIdIs(old(currentFormConfig).value.id)) >= 0 ==>
                currentFormConfig.Some?
                && currentFormConfig.value.fields == Reordered(old(currentFormConfig).value.fields, fieldIds)
      ensures formData == old(formData) && submissions == old(submissions)
    {
      if currentFormConfig.None? {
        return;
      }
      var c := currentFormConfig.value;
      UpdateFormConfig(c.id, FieldsOnly(Reordered(c.fields, fieldIds)), now);
    }

    method SetFormValue(fieldName: string, value: Value)
      modifies this`formData
      ensures formData == old(formData)[fieldName := value]
    {
      formData := formData[fieldName := value];
    }

    method ResetFormData()
      modifies this`formData
      ensures formData == map[]
    {
      formData := map[];
    }

    /** Records a submission of the entered values for the selected form and
        clears them; fails, changing nothing, when no form is selected. */
    method SubmitForm(userId: string, id: string, now: string) returns (r: Outcome<FormStoreError>)
      modifies this
      ensures old(currentFormConfig).None? ==> r == Fail(NoFormSelected) && unchanged(this)
      ensures old(currentFormConfig).Some? ==>
                r == Pass
                && submissions == old(submissions) + [FormSubmission(id, userId, old(currentFormConfig).value.id, old(formData), now)]
                && formData == map[] && !isLoading && error.None?
      ensures formConfigs == old(formConfigs) && currentFormConfig == old(currentFormConfig)
    {
      if currentFormConfig.None? {
        return Fail(NoFormSelected);
      }
      isLoading := true;
      error := None;
      var submission := FormSubmission(id, userId, currentFormConfig.value.id, formData, now);
      submissions := submissions + [submission];
      ResetFormData();
      isLoading := false;
      r := Pass;
    }

    /** The selected form's fields ascending by order, or none. */
    function SortedFields(): (r: seq<Field>)
      reads this
      ensures currentFormConfig.None? ==> r == []
      ensures currentFormConfig.Some? ==> SortedByOrder(r) && multiset(r) == multiset(currentFormConfig.value.fields)
      ensures currentFormConfig.Some? ==>
                forall o :: Filter(r, OrderIs(o)) == Filter(currentFormConfig.value.fields, OrderIs(o))
    {
      if currentFormConfig.None? then []
      else
        SortByOrderStable(currentFormConfig.value.fields);
        SortByOrder(currentFormConfig.value.fields)
    }

    /** A form is selected and every required field has a present value. */
    function IsFormValid(): (r: bool)
      reads this
      ensures r <==> currentFormConfig.Some?
                     && forall f :: f in currentFormConfig.value.fields && f.required ==> Present(Lookup(formData, f.name))
    {
      currentFormConfig.Some? && RequiredPresent(currentFormConfig.value.fields, formData)
    }

    function FieldCount(): (n: nat)
      reads this
      ensures currentFormConfig.Some? ==> n == |currentFormConfig.value.fields|
      ensures currentFormConfig.None? ==> n == 0
    {
      if currentFormConfig.Some? then |currentFormConfig.value.fields| else 0
    }

    function CanAddField(): (r: bool)
      reads this
      ensures r <==> FieldCount() < 10
    {
      FieldCount() < 10
    }

    function CanRemoveField(): (r: bool)
      reads this
      ensures r <==> FieldCount() > 2
    {
      FieldCount() > 2
    }

    /** The session's submissions by the user, oldest first. */
    function GetUserSubmissions(userId: string): (r: seq<FormSubmission>)
      reads this
      ensures r == SubmissionsByUser(submissions, userId)
      ensures forall s :: s in r <==> s in submissions && s.userId == userId
    {
      SubmissionsByUser(submissions, userId)
    }

    /** The user's present values for the field across the session's
        submissions, oldest first: the backend's field history over this
        store's submissions. */
    function GetFieldSubmissionHistory(userId: string, fieldName: string): (r: seq<Value>)
      reads this
      ensures r == FieldHistory(submissions, userId, fieldName)
    {
      FieldHistory(submissions, userId, fieldName)
    }
  }
}
