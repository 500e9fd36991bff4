/** A configuration read again under a running pipeline: which sections may join
    or leave, which changes are refused, and what is running afterwards. */
module Reload {
  import opened Wrappers

  /** One `[sync]` section; a value whose structure does not matter here is its
      text. */
  datatype Section = Section(
    table: string, index: Option<string>, primaryKey: Option<string>, appendOnly: bool, id: Option<string>,
    routing: Option<string>, fanOut: Option<string>, join: Option<string>, children: seq<string>,
    pollColumn: Option<string>,
    columns: Option<seq<string>>, excludeColumns: seq<string>, transform: map<string, string>,
    fields: map<string, string>, constants: map<string, string>, aggregates: seq<string>, filter: Option<string>,
    pipeline: Option<string>, softDelete: Option<string>, mappingFile: Option<string>, mapping: Option<string>)

  type Sync = map<string, Section>

  /** `fixed` holds the settings outside the sections that a running pipeline
      cannot change, by section and name. */
  datatype Config = Config(mode: string, fixed: map<string, string>, sync: Sync)

  datatype Edit = Add(key: string) | Remove(key: string, table: string, index: string)

  /** The fields a section's change is refused by; `MappingField` is what the
      mapping file holds. */
  datatype SectionField =
    | TableField | IndexField | PrimaryKeyField | AppendOnlyField | IdField | RoutingField | FanOutField | JoinField
    | ChildrenField | ColumnsField | ExcludeColumnsField | TransformField | FieldsField | ConstantsField
    | AggregatesField | WhereField | PipelineField | SoftDeleteField | MappingFileField | MappingField

  datatype Refusal =
    | Setting(name: string)
    | RemovedWhilePolling(key: string)
    | JoiningTakesARestart(key: string)
    | Identity(key: string, field: SectionField)
    | Reshaped(key: string, fields: seq<SectionField>)
    | PollColumn(key: string)
    | CouldNot(key: string)

  datatype Plan = Plan(refusals: seq<Refusal>, sections: seq<Edit>)

  // -------------------------------------------------------------- one section

  function IndexName(key: string, s: Section): string {
    if s.index.Some? then s.index.value else key
  }

  predicate Templated(s: Section) {
    s.index.Some? && '{' in s.index.value
  }

  predicate TakesARestart(s: Section, mode: string) {
    mode == "poll" || s.children != [] || s.join.Some? || s.fanOut.Some? || s.aggregates != [] || Templated(s)
  }

  function When<T>(differs: bool, x: T): seq<T> {
    if differs then [x] else []
  }

  const IdentityFields :=
    [TableField, IndexField, PrimaryKeyField, AppendOnlyField, IdField, RoutingField, FanOutField, JoinField, ChildrenField]

  const ShapeFields :=
    [ColumnsField, ExcludeColumnsField, TransformField, FieldsField, ConstantsField, AggregatesField, WhereField,
     PipelineField, SoftDeleteField, MappingFileField, MappingField]

  predicate Differs(a: Section, b: Section, f: SectionField) {
    match f
    case TableField => a.table != b.table
    case IndexField => a.index != b.index
    case PrimaryKeyField => a.primaryKey != b.primaryKey
    case AppendOnlyField => a.appendOnly != b.appendOnly
    case IdField => a.id != b.id
    case RoutingField => a.routing != b.routing
    case FanOutField => a.fanOut != b.fanOut
    case JoinField => a.join != b.join
    case ChildrenField => a.children != b.children
    case ColumnsField => a.columns != b.columns
    case ExcludeColumnsField => a.excludeColumns != b.excludeColumns
    case TransformField => a.transform != b.transform
    case FieldsField => a.fields != b.fields
    case ConstantsField => a.constants != b.constants
    case AggregatesField => a.aggregates != b.aggregates
    case WhereField => a.filter != b.filter
    case PipelineField => a.pipeline != b.pipeline
    case SoftDeleteField => a.softDelete != b.softDelete
    case MappingFileField => a.mappingFile != b.mappingFile
    case MappingField => a.mapping != b.mapping
  }

  /** Those of the fields that differ, in order. */
  function Differing(fields: seq<SectionField>, a: Section, b: Section): seq<SectionField> {
    if fields == [] then []
    else
      var f := fields[|fields| - 1];
      Differing(fields[..|fields| - 1], a, b) + When(Differs(a, b, f), f)
  }

  lemma {:induction false} DifferingAre(fields: seq<SectionField>, a: Section, b: Section)
    ensures forall f :: f in Differing(fields, a, b) <==> f in fields && Differs(a, b, f)
    ensures Differing(fields, a, b) == [] <==> forall i | 0 <= i < |fields| :: !Differs(a, b, fields[i])
  {
    if fields != [] {
      var n := |fields| - 1;
      DifferingAre(fields[..n], a, b);
      assert fields == fields[..n] + [fields[n]];
      hide Differs;
    }
  }

  function IdentityChanges(a: Section, b: Section): seq<SectionField> {
    Differing(IdentityFields, a, b)
  }

  function ShapeChanges(a: Section, b: Section): seq<SectionField> {
    Differing(ShapeFields, a, b)
  }

  /** Identity first; a reshape is named only where identity holds; the poll
      column in either case. */
  function SectionRefusals(key: string, a: Section, b: Section): seq<Refusal> {
    var identity := IdentityChanges(a, b);
    var poll := When(a.pollColumn != b.pollColumn, PollColumn(key));
    if identity != [] then seq(|identity|, i requires 0 <= i < |identity| => Identity(key, identity[i])) + poll
    else
      var shape := ShapeChanges(a, b);
      (if shape == [] then [] else [Reshaped(key, shape)]) + poll
  }

  /** A section may change under a running pipeline in no way at all. */
  lemma RefusedUnlessTheSame(key: string, a: Section, b: Section)
    ensures SectionRefusals(key, a, b) == [] <==> a == b
  {
    if a == b { DifferingAre(IdentityFields, a, b); DifferingAre(ShapeFields, a, b); }
    if SectionRefusals(key, a, b) == [] {
      assert IdentityChanges(a, b) == [] && ShapeChanges(a, b) == [] && a.pollColumn == b.pollColumn;
      SameIdentity(a, b);
      SameShape(a, b);
    }
  }

  lemma SameIdentity(a: Section, b: Section)
    requires IdentityChanges(a, b) == []
    ensures a.table == b.table && a.index == b.index && a.primaryKey == b.primaryKey && a.appendOnly == b.appendOnly
    ensures a.id == b.id && a.routing == b.routing && a.fanOut == b.fanOut && a.join == b.join && a.children == b.children
  {
    var all := IdentityFields;
    DifferingAre(all, a, b);
    hide Differing;
    assert !Differs(a, b, all[0]) && !Differs(a, b, all[1]) && !Differs(a, b, all[2]) && !Differs(a, b, all[3]);
    assert !Differs(a, b, all[4]) && !Differs(a, b, all[5]) && !Differs(a, b, all[6]) && !Differs(a, b, all[7]) && !Differs(a, b, all[8]);
  }

  lemma SameShape(a: Section, b: Section)
    requires ShapeChanges(a, b) == []
    ensures a.columns == b.columns && a.excludeColumns == b.excludeColumns && a.transform == b.transform
    ensures a.fields == b.fields && a.constants == b.constants && a.aggregates == b.aggregates && a.filter == b.filter
    ensures a.pipeline == b.pipeline && a.softDelete == b.softDelete && a.mappingFile == b.mappingFile && a.mapping == b.mapping
  {
    var all := ShapeFields;
    DifferingAre(all, a, b);
    hide Differing;
    assert !Differs(a, b, all[0]) && !Differs(a, b, all[1]) && !Differs(a, b, all[2]) && !Differs(a, b, all[3]) && !Differs(a, b, all[4]);
    assert !Differs(a, b, all[5]) && !Differs(a, b, all[6]) && !Differs(a, b, all[7]) && !Differs(a, b, all[8]) && !Differs(a, b, all[9]);
    assert !Differs(a, b, all[10]);
  }

  // ------------------------------------------------------------------- the plan

  /** `keys` lists, once each and in the order maps are read in, every key
      either file has. */
  ghost predicate Lists(keys: seq<string>, now: Sync, file: Sync) {
    && (forall i, j | 0 <= i < j < |keys| :: keys[i] != keys[j])
    && (forall k | k in now || k in file :: k in keys)
  }

  function SettingRefusals(now: Config, file: Config, names: seq<string>): seq<Refusal> {
    if names == [] then []
    else
      var n := names[|names| - 1];
      SettingRefusals(now, file, names[..|names| - 1])
      + When((n in now.fixed) != (n in file.fixed) || (n in now.fixed && n in file.fixed && now.fixed[n] != file.fixed[n]), Setting(n))
  }

  function RemovalAt(k: string, now: Sync, file: Config): (seq<Edit>, seq<Refusal>) {
    if k !in now || k in file.sync then ([], [])
    else if file.mode == "poll" then ([], [RemovedWhilePolling(k)])
    else ([Remove(k, now[k].table, IndexName(k, now[k]))], [])
  }

  function AdditionAt(k: string, now: Sync, file: Config): (seq<Edit>, seq<Refusal>) {
    if k !in file.sync then ([], [])
    else if k in now then ([], SectionRefusals(k, now[k], file.sync[k]))
    else if TakesARestart(file.sync[k], file.mode) then ([], [JoiningTakesARestart(k)])
    else ([Add(k)], [])
  }

  function Removals(keys: seq<string>, now: Sync, file: Config): (seq<Edit>, seq<Refusal>) {
    if keys == [] then ([], [])
    else
      var (es, rs) := Removals(keys[..|keys| - 1], now, file);
      var (e, r) := RemovalAt(keys[|keys| - 1], now, file);
      (es + e, rs + r)
  }

  function Additions(keys: seq<string>, now: Sync, file: Config): (seq<Edit>, seq<Refusal>) {
    if keys == [] then ([], [])
    else
      var (es, rs) := Additions(keys[..|keys| - 1], now, file);
      var (e, r) := AdditionAt(keys[|keys| - 1], now, file);
      (es + e, rs + r)
  }

  function PlanOf(now: Config, file: Config, keys: seq<string>, names: seq<string>): Plan {
    var (off, cannotLeave) := Removals(keys, now.sync, file);
    var (on, cannotJoin) := Additions(keys, now.sync, file);
    Plan(SettingRefusals(now, file, names) + cannotLeave + cannotJoin, off + on)
  }

  /** Reads both files setting by setting and key by key. */
  method Classify(now: Config, file: Config, keys: seq<string>, names: seq<string>) returns (plan: Plan)
    ensures plan == PlanOf(now, file, keys, names)
  {
    var refusals: seq<Refusal> := [];
    for i := 0 to |names|
      invariant refusals == SettingRefusals(now, file, names[..i])
    {
      assert names[..i + 1][..i] == names[..i];
      var n := names[i];
      if (n in now.fixed) != (n in file.fixed) || (n in now.fixed && n in file.fixed && now.fixed[n] != file.fixed[n]) {
        refusals := refusals + [Setting(n)];
      }
    }
    assert names[..|names|] == names;
    var leaving, cannotLeave := ClassifyRemovals(now.sync, file, keys);
    var joining, cannotJoin := ClassifyAdditions(now.sync, file, keys);
    return Plan(refusals + cannotLeave + cannotJoin, leaving + joining);
  }

  method ClassifyRemovals(now: Sync, file: Config, keys: seq<string>) returns (sections: seq<Edit>, refusals: seq<Refusal>)
    ensures (sections, refusals) == Removals(keys, now, file)
  {
    sections, refusals := [], [];
    for i := 0 to |keys|
      invariant (sections, refusals) == Removals(keys[..i], now, file)
    {
      assert keys[..i + 1][..i] == keys[..i];
      assert sections + [] == sections && refusals + [] == refusals;
      var k := keys[i];
      if k in now && k !in file.sync {
        if file.mode == "poll" {
          refusals := refusals + [RemovedWhilePolling(k)];
        } else {
          sections := sections + [Remove(k, now[k].table, IndexName(k, now[k]))];
        }
      }
    }
    assert keys[..|keys|] == keys;
  }

  method ClassifyAdditions(now: Sync, file: Config, keys: seq<string>) returns (sections: seq<Edit>, refusals: seq<Refusal>)
    ensures (sections, refusals) == Additions(keys, now, file)
  {
    hide SectionRefusals, TakesARestart;
    sections, refusals := [], [];
    for i := 0 to |keys|
      invariant (sections, refusals) == Additions(keys[..i], now, file)
    {
      assert keys[..i + 1][..i] == keys[..i];
      assert sections + [] == sections && refusals + [] == refusals;
      var k := keys[i];
      if k in file.sync {
        if k in now {
          refusals := refusals + SectionRefusals(k, now[k], file.sync[k]);
        } else if TakesARestart(file.sync[k], file.mode) {
          refusals := refusals + [JoiningTakesARestart(k)];
        } else {
          sections := sections + [Add(k)];
        }
      }
    }
    assert keys[..|keys|] == keys;
  }

  // --------------------------------------------------------------- applying it

  function Edited(sync: Sync, edit: Edit, file: Sync): Sync {
    match edit
    case Add(k) => if k in file then sync[k := file[k]] else sync
    case Remove(k, _, _) => sync - {k}
  }

  /** What runs after the first edits, `took` saying which of them took. */
  function After(sync: Sync, edits: seq<Edit>, took: seq<bool>, file: Sync): Sync
    requires |took| == |edits|
  {
    if edits == [] then sync
    else
      var n := |edits| - 1;
      var before := After(sync, edits[..n], took[..n], file);
      if took[n] then Edited(before, edits[n], file) else before
  }

  function Failed(edits: seq<Edit>, took: seq<bool>): seq<Edit>
    requires |took| == |edits|
  {
    if edits == [] then []
    else
      var n := |edits| - 1;
      Failed(edits[..n], took[..n]) + if took[n] then [] else [edits[n]]
  }

  /** Tries each edit in turn on what is running then. Nothing streaming takes
      none of them. */
  method ApplySections(plan: Plan, file: Config, running: Sync, streaming: bool, took: seq<bool>)
    returns (sync: Sync, refused: seq<Refusal>)
    requires |took| == |plan.sections| && (!streaming ==> forall i | 0 <= i < |took| :: !took[i])
    ensures sync == After(running, plan.sections, took, file.sync)
    ensures refused == CouldNots(Failed(plan.sections, took))
  {
    sync, refused := running, [];
    for i := 0 to |plan.sections|
      invariant sync == After(running, plan.sections[..i], took[..i], file.sync)
      invariant refused == CouldNots(Failed(plan.sections[..i], took[..i]))
    {
      var edit := plan.sections[i];
      assert plan.sections[..i + 1][..i] == plan.sections[..i] && took[..i + 1][..i] == took[..i];
      var next := sync;
      match edit {
        case Add(k) => if k in file.sync { next := next[k := file.sync[k]]; }
        case Remove(k, _, _) => next := next - {k};
      }
      if streaming && took[i] {
        sync := next;
      } else {
        refused := refused + [CouldNot(edit.key)];
      }
    }
    assert plan.sections[..|took|] == plan.sections && took[..|took|] == took;
  }

  function CouldNots(edits: seq<Edit>): seq<Refusal> {
    seq(|edits|, i requires 0 <= i < |edits| => CouldNot(edits[i].key))
  }

  // ------------------------------------------------------ which edits are planned

  ghost predicate DifferentKeys(edits: seq<Edit>) {
    forall i, j | 0 <= i < j < |edits| :: edits[i].key != edits[j].key
  }

  lemma {:induction false} RemovalsAre(keys: seq<string>, now: Sync, file: Config)
    requires forall i, j | 0 <= i < j < |keys| :: keys[i] != keys[j]
    ensures var es := Removals(keys, now, file).0;
            && DifferentKeys(es)
            && forall i | 0 <= i < |es| :: es[i].Remove? && es[i].key in keys && es[i].key in now && es[i].key !in file.sync
    ensures file.mode == "poll" ==> Removals(keys, now, file).0 == []
  {
    if keys != [] {
      var n := |keys| - 1;
      RemovalsAre(keys[..n], now, file);
      assert forall k | k in keys[..n] :: k in keys && k != keys[n];
    }
  }

  lemma {:induction false} AdditionsAre(keys: seq<string>, now: Sync, file: Config)
    requires forall i, j | 0 <= i < j < |keys| :: keys[i] != keys[j]
    ensures var es := Additions(keys, now, file).0;
            && DifferentKeys(es)
            && forall i | 0 <= i < |es| ::
                 && es[i].Add? && es[i].key in keys && es[i].key !in now && es[i].key in file.sync
                 && !TakesARestart(file.sync[es[i].key], file.mode)
    ensures file.mode == "poll" ==> Additions(keys, now, file).0 == []
  {
    hide SectionRefusals;
    if keys != [] {
      var n := |keys| - 1;
      assert file.mode == "poll" && keys[n] in file.sync ==> TakesARestart(file.sync[keys[n]], file.mode);
      hide TakesARestart;
      AdditionsAre(keys[..n], now, file);
      assert forall k | k in keys[..n] :: k in keys && k != keys[n];
    }
  }

  /** Every edit of a plan is about a key of its own: leaving ones run and are
      not in the file, joining ones the other way about. */
  lemma {:induction false} PlanIs(now: Config, file: Config, keys: seq<string>, names: seq<string>)
    requires Lists(keys, now.sync, file.sync)
    ensures var es := PlanOf(now, file, keys, names).sections;
            && DifferentKeys(es)
            && forall i | 0 <= i < |es| ::
                 if es[i].Add? then es[i].key !in now.sync && es[i].key in file.sync
                 else es[i].key in now.sync && es[i].key !in file.sync
    ensures file.mode == "poll" ==> PlanOf(now, file, keys, names).sections == []
  {
    RemovalsAre(keys, now.sync, file);
    AdditionsAre(keys, now.sync, file);
    hide Removals, Additions, SettingRefusals;
  }

  // -------------------------------------------------- what runs after the edits

  lemma {:induction false} UntouchedKey(sync: Sync, edits: seq<Edit>, took: seq<bool>, file: Sync, k: string)
    requires |took| == |edits| && forall i | 0 <= i < |edits| && took[i] :: edits[i].key != k
    ensures k in After(sync, edits, took, file) <==> k in sync
    ensures k in sync ==> After(sync, edits, took, file)[k] == sync[k]
  {
    if edits != [] {
      var n := |edits| - 1;
      UntouchedKey(sync, edits[..n], took[..n], file, k);
    }
  }

  lemma {:induction false} EditedKey(sync: Sync, edits: seq<Edit>, took: seq<bool>, file: Sync, i: nat)
    requires |took| == |edits| && DifferentKeys(edits) && i < |edits| && took[i]
    requires edits[i].Add? ==> edits[i].key in file
    ensures var k, after := edits[i].key, After(sync, edits, took, file);
            if edits[i].Add? then k in after && after[k] == file[k] else k !in after
  {
    var n := |edits| - 1;
    if i < n {
      EditedKey(sync, edits[..n], took[..n], file, i);
    }
  }

  /** A reload advances what is running by exactly the edits that took. */
  lemma {:induction false} AdvancedByWhatTook(now: Config, file: Config, keys: seq<string>, names: seq<string>, took: seq<bool>, k: string)
    requires Lists(keys, now.sync, file.sync) && |took| == |PlanOf(now, file, keys, names).sections|
    ensures var es := PlanOf(now, file, keys, names).sections;
            var after := After(now.sync, es, took, file.sync);
            && (k in after <==>
                  || (exists i :: 0 <= i < |es| && took[i] && es[i] == Add(k))
                  || (k in now.sync && forall i | 0 <= i < |es| && took[i] :: !(es[i].Remove? && es[i].key == k)))
            && (k in after && k in now.sync ==> after[k] == now.sync[k])
            && (k in after && k !in now.sync ==> k in file.sync && after[k] == file.sync[k])
  {
    var es := PlanOf(now, file, keys, names).sections;
    PlanIs(now, file, keys, names);
    hide PlanOf, Lists;
    if i :| 0 <= i < |es| && took[i] && es[i].key == k {
      EditedKey(now.sync, es, took, file.sync, i);
      if es[i].Remove? {
        forall j | 0 <= j < |es| && took[j] ensures es[j] != Add(k) { if j != i { assert es[j].key != es[i].key; } }
      } else {
        assert es[i] == Add(k);
      }
    } else {
      UntouchedKey(now.sync, es, took, file.sync, k);
    }
  }

  // ------------------------------------------------------- the same file again

  /** How `after` stands to the edits: those that took are done, the others have
      changed nothing, and nothing else has changed. */
  ghost predicate Stands(now: Sync, after: Sync, file: Config, edits: seq<Edit>, took: seq<bool>) {
    && |took| == |edits|
    && (forall i | 0 <= i < |edits| && took[i] ::
          if edits[i].Add? then edits[i].key in file.sync && edits[i].key in after && after[edits[i].key] == file.sync[edits[i].key]
          else edits[i].key !in after)
    && (forall i | 0 <= i < |edits| && !took[i] :: Unmoved(now, after, edits[i].key))
  }

  ghost predicate Unmoved(now: Sync, after: Sync, k: string) {
    (k in after <==> k in now) && (k in now ==> after[k] == now[k])
  }

  ghost predicate OthersUnmoved(now: Sync, after: Sync, edits: seq<Edit>) {
    forall k | (forall i | 0 <= i < |edits| :: edits[i].key != k) :: Unmoved(now, after, k)
  }

  lemma {:induction false} FailedMore(es: seq<Edit>, e: seq<Edit>, took: seq<bool>)
    requires |e| <= 1 && |took| == |es| + |e|
    ensures Failed(es + e, took) == Failed(es, took[..|es|]) + if e != [] && !took[|es|] then e else []
  {
    if e == [] {
      assert es + e == es && took[..|es|] == took;
    } else {
      assert (es + e)[..|es|] == es && e == [e[0]];
    }
  }

  lemma {:induction false} StandsShorter(now: Sync, after: Sync, file: Config, es: seq<Edit>, e: seq<Edit>, took: seq<bool>)
    requires Stands(now, after, file, es + e, took)
    ensures Stands(now, after, file, es, took[..|es|])
  {
    assert forall i | 0 <= i < |es| :: (es + e)[i] == es[i];
  }

  lemma {:induction false} RemovalsAgain(keys: seq<string>, now: Sync, after: Sync, file: Config, took: seq<bool>)
    requires Stands(now, after, file, Removals(keys, now, file).0, took)
    requires forall k | k in now || k in after :: k in file.sync || (k in now && (k in after ==> after[k] == now[k]))
    requires forall k | k in now && k !in file.sync && file.mode == "poll" :: k in after
    ensures Removals(keys, after, file) == (Failed(Removals(keys, now, file).0, took), Removals(keys, now, file).1)
  {
    if keys != [] {
      var n := |keys| - 1;
      var k := keys[n];
      var es := Removals(keys[..n], now, file).0;
      var (e, r) := RemovalAt(k, now, file);
      StandsShorter(now, after, file, es, e, took);
      RemovalsAgain(keys[..n], now, after, file, took[..|es|]);
      FailedMore(es, e, took);
      assert e != [] ==> (es + e)[|es|] == e[0];
      assert RemovalAt(k, after, file) == (if e != [] && !took[|es|] then e else [], r);
    }
  }

  lemma {:induction false} AdditionAgain(k: string, now: Sync, after: Sync, file: Config, took: bool)
    requires k in file.sync && (k in now || TakesARestart(file.sync[k], file.mode)) ==> Unmoved(now, after, k)
    requires AdditionAt(k, now, file).0 != [] ==>
               if took then k in after && after[k] == file.sync[k] else Unmoved(now, after, k)
    ensures AdditionAt(k, after, file) ==
            (if AdditionAt(k, now, file).0 != [] && !took then AdditionAt(k, now, file).0 else [], AdditionAt(k, now, file).1)
  {
    if k in file.sync { RefusedUnlessTheSame(k, file.sync[k], file.sync[k]); }
    hide SectionRefusals, TakesARestart;
  }

  lemma {:induction false} AdditionsAgain(keys: seq<string>, now: Sync, after: Sync, file: Config, took: seq<bool>)
    requires Stands(now, after, file, Additions(keys, now, file).0, took)
    requires forall k | k in file.sync && (k in now || TakesARestart(file.sync[k], file.mode)) :: Unmoved(now, after, k)
    ensures Additions(keys, after, file) == (Failed(Additions(keys, now, file).0, took), Additions(keys, now, file).1)
  {
    if keys != [] {
      var n := |keys| - 1;
      var k := keys[n];
      var es := Additions(keys[..n], now, file).0;
      var e := AdditionAt(k, now, file).0;
      var last := if e != [] then took[|es|] else true;
      assert e != [] ==> (es + e)[|es|] == e[0] == Add(k) && k in file.sync && k !in now;
      AdditionAgain(k, now, after, file, last);
      StandsShorter(now, after, file, es, e, took);
      AdditionsAgain(keys[..n], now, after, file, took[..|es|]);
      FailedMore(es, e, took);
      hide Failed, AdditionAt, Stands;
      assert Additions(keys, now, file).0 == es + e;
    }
  }

  lemma {:induction false} FailedConcat(a: seq<Edit>, b: seq<Edit>, took: seq<bool>)
    requires |took| == |a| + |b|
    ensures Failed(a + b, took) == Failed(a, took[..|a|]) + Failed(b, took[|a|..])
    decreases |b|
  {
    if b == [] {
      assert a + b == a && took[..|a|] == took;
    } else {
      var n := |b| - 1;
      var most := took[..|took| - 1];
      FailedConcat(a, b[..n], most);
      assert (a + b)[..|a| + n] == a + b[..n];
      assert most[..|a|] == took[..|a|] && most[|a|..] == took[|a|..][..n];
      assert took[|a|..][n] == took[|a| + n] && (a + b)[|a| + n] == b[n];
      var x, y := Failed(a, took[..|a|]), Failed(b[..n], took[|a|..][..n]);
      var z := if took[|a| + n] then [] else [b[n]];
      assert Failed(a + b, took) == x + y + z;
      assert Failed(b, took[|a|..]) == y + z;
    }
  }

  /** The edits of a plan and what runs after them. */
  lemma {:induction false} PlanStands(now: Config, file: Config, keys: seq<string>, names: seq<string>, took: seq<bool>)
    requires Lists(keys, now.sync, file.sync) && |took| == |PlanOf(now, file, keys, names).sections|
    ensures var es := PlanOf(now, file, keys, names).sections;
            var after := After(now.sync, es, took, file.sync);
            Stands(now.sync, after, file, es, took) && OthersUnmoved(now.sync, after, es)
  {
    var es := PlanOf(now, file, keys, names).sections;
    var after := After(now.sync, es, took, file.sync);
    PlanIs(now, file, keys, names);
    hide PlanOf, Lists;
    forall i | 0 <= i < |es| && took[i]
      ensures if es[i].Add? then es[i].key in after && after[es[i].key] == file.sync[es[i].key] else es[i].key !in after
    {
      EditedKey(now.sync, es, took, file.sync, i);
    }
    forall k | forall i | 0 <= i < |es| && took[i] :: es[i].key != k ensures Unmoved(now.sync, after, k) {
      UntouchedKey(now.sync, es, took, file.sync, k);
    }
    hide After;
    forall i | 0 <= i < |es| && !took[i] ensures Unmoved(now.sync, after, es[i].key) {
      forall j | 0 <= j < |es| && took[j] ensures es[j].key != es[i].key {}
    }
  }

  /** The same file again plans exactly the edits that failed, in their order,
      with the same refusals. */
  lemma {:induction false} SameFileAgain(now: Config, file: Config, keys: seq<string>, names: seq<string>, took: seq<bool>)
    requires Lists(keys, now.sync, file.sync) && |took| == |PlanOf(now, file, keys, names).sections|
    ensures var plan := PlanOf(now, file, keys, names);
            var after := now.(sync := After(now.sync, plan.sections, took, file.sync));
            PlanOf(after, file, keys, names) == Plan(plan.refusals, Failed(plan.sections, took))
  {
    var plan := PlanOf(now, file, keys, names);
    var after := now.(sync := After(now.sync, plan.sections, took, file.sync));
    var (off, cannotLeave) := Removals(keys, now.sync, file);
    var (on, cannotJoin) := Additions(keys, now.sync, file);
    PlanStands(now, file, keys, names, took);
    PlanIs(now, file, keys, names);
    RemovalsAre(keys, now.sync, file);
    AdditionsAre(keys, now.sync, file);
    FailedConcat(off, on, took);
    SettingsStay(now, after, file, names);
    StandsParts(now.sync, after.sync, file, off, on, took);
    BothStand(now.sync, after.sync, file, off, on, took);
    hide After, Failed, Stands, Lists, SettingRefusals, Removals, Additions, TakesARestart;
    RemovalsAgain(keys, now.sync, after.sync, file, took[..|off|]);
    AdditionsAgain(keys, now.sync, after.sync, file, took[|off|..]);
  }

  lemma {:induction false} SettingsStay(now: Config, after: Config, file: Config, names: seq<string>)
    requires after.fixed == now.fixed
    ensures SettingRefusals(after, file, names) == SettingRefusals(now, file, names)
  {
    if names != [] { SettingsStay(now, after, file, names[..|names| - 1]); }
  }

  lemma {:induction false} StandsParts(now: Sync, after: Sync, file: Config, off: seq<Edit>, on: seq<Edit>, took: seq<bool>)
    requires Stands(now, after, file, off + on, took)
    ensures Stands(now, after, file, off, took[..|off|]) && Stands(now, after, file, on, took[|off|..])
  {
    var es := off + on;
    assert forall i | 0 <= i < |off| :: es[i] == off[i];
    assert forall i | 0 <= i < |on| :: es[|off| + i] == on[i];
  }

  lemma {:induction false} BothStand(now: Sync, after: Sync, file: Config, off: seq<Edit>, on: seq<Edit>, took: seq<bool>)
    requires Stands(now, after, file, off + on, took) && OthersUnmoved(now, after, off + on)
    requires forall i | 0 <= i < |off| :: off[i].Remove? && off[i].key in now && off[i].key !in file.sync
    requires forall i | 0 <= i < |on| ::
               on[i].Add? && on[i].key !in now && on[i].key in file.sync && !TakesARestart(file.sync[on[i].key], file.mode)
    requires file.mode == "poll" ==> off == [] && on == []
    ensures forall k | k in now || k in after :: k in file.sync || (k in now && (k in after ==> after[k] == now[k]))
    ensures forall k | k in now && k !in file.sync && file.mode == "poll" :: k in after
    ensures forall k | k in file.sync && (k in now || TakesARestart(file.sync[k], file.mode)) :: Unmoved(now, after, k)
  {
    hide TakesARestart;
    var es := off + on;
    assert forall i | 0 <= i < |off| :: es[i] == off[i];
    assert forall i | 0 <= i < |on| :: es[|off| + i] == on[i];
    forall k | k in now || k in after ensures k in file.sync || (k in now && (k in after ==> after[k] == now[k])) {
      if i :| 0 <= i < |es| && es[i].key == k { } else { assert Unmoved(now, after, k); }
    }
    forall k | k in file.sync && (k in now || TakesARestart(file.sync[k], file.mode)) ensures Unmoved(now, after, k) {
      assert forall i | 0 <= i < |es| :: es[i].key != k;
    }
    forall k | k in now && file.mode == "poll" ensures k in after { assert Unmoved(now, after, k); }
  }

  // -------------------------------------------------------- one table, one section

  /** No table is routed through two sections. */
  ghost predicate OnePerTable(sync: Sync) {
    forall a, b | a in sync && b in sync && sync[a].table == sync[b].table :: a == b
  }

  ghost predicate AllTook(took: seq<bool>) {
    forall i | 0 <= i < |took| :: took[i]
  }

  lemma {:induction false} NothingRefused(keys: seq<string>, now: Sync, file: Config)
    requires Removals(keys, now, file).1 == [] && Additions(keys, now, file).1 == []
    ensures forall k | k in keys && k in now && k in file.sync :: now[k] == file.sync[k]
    ensures forall k | k in keys && k in now && k !in file.sync ::
              exists i :: 0 <= i < |Removals(keys, now, file).0| && Removals(keys, now, file).0[i].key == k
    ensures forall k | k in keys && k !in now && k in file.sync :: Add(k) in Additions(keys, now, file).0
  {
    if keys != [] {
      var n := |keys| - 1;
      var k := keys[n];
      var (es, rs) := Removals(keys[..n], now, file);
      var (joins, ss) := Additions(keys[..n], now, file);
      var (e, r) := RemovalAt(k, now, file);
      var (a, s) := AdditionAt(k, now, file);
      assert |rs + r| == 0 && |ss + s| == 0;
      NothingRefused(keys[..n], now, file);
      if k in now && k in file.sync { RefusedUnlessTheSame(k, now[k], file.sync[k]); }
      hide SectionRefusals, TakesARestart;
      forall x | x in keys && x in now && x !in file.sync ensures exists i :: 0 <= i < |es + e| && (es + e)[i].key == x {
        if x == k {
          assert (es + e)[|es|].key == x;
        } else {
          assert x in keys[..n];
          var i :| 0 <= i < |es| && es[i].key == x;
          assert (es + e)[i].key == x;
        }
      }
      assert forall x | x in keys :: x in keys[..n] || x == k;
    }
  }

  /** A plan that refuses nothing: removals of all that has to leave, then
      additions of all that is missing, and no difference elsewhere. */
  ghost predicate Clean(off: seq<Edit>, on: seq<Edit>, now: Sync, file: Sync) {
    && DifferentKeys(off + on)
    && (forall j | 0 <= j < |off| :: off[j].Remove? && off[j].key !in file)
    && (forall j | 0 <= j < |on| :: on[j].Add? && on[j].key !in now && on[j].key in file)
    && (forall x | x in now && x in file :: now[x] == file[x])
    && (forall x | x in now && x !in file :: exists j :: 0 <= j < |off| && off[j].key == x)
    && (forall x | x !in now && x in file :: Add(x) in on)
  }

  lemma {:induction false} CleanPlan(now: Config, file: Config, keys: seq<string>, names: seq<string>)
    returns (off: seq<Edit>, on: seq<Edit>)
    requires Lists(keys, now.sync, file.sync) && PlanOf(now, file, keys, names).refusals == []
    ensures PlanOf(now, file, keys, names).sections == off + on && Clean(off, on, now.sync, file.sync)
  {
    off, on := Removals(keys, now.sync, file).0, Additions(keys, now.sync, file).0;
    PlanIs(now, file, keys, names);
    assert |SettingRefusals(now, file, names) + Removals(keys, now.sync, file).1 + Additions(keys, now.sync, file).1| == 0;
    hide Removals, Additions, SettingRefusals, DifferentKeys, Clean;
    CleanParts(now.sync, file, keys);
  }

  lemma {:induction false} CleanParts(now: Sync, file: Config, keys: seq<string>)
    requires Lists(keys, now, file.sync) && DifferentKeys(Removals(keys, now, file).0 + Additions(keys, now, file).0)
    requires Removals(keys, now, file).1 == [] && Additions(keys, now, file).1 == []
    ensures Clean(Removals(keys, now, file).0, Additions(keys, now, file).0, now, file.sync)
  {
    hide DifferentKeys, TakesARestart;
    RemovalsAre(keys, now, file);
    AdditionsAre(keys, now, file);
    NothingRefused(keys, now, file);
    hide Removals, Additions;
    assert forall x | x in now || x in file.sync :: x in keys;
    IsClean(Removals(keys, now, file).0, Additions(keys, now, file).0, now, file.sync);
  }

  lemma {:induction false} IsClean(off: seq<Edit>, on: seq<Edit>, now: Sync, file: Sync)
    requires DifferentKeys(off + on)
    requires forall j | 0 <= j < |off| :: off[j].Remove? && off[j].key !in file
    requires forall j | 0 <= j < |on| :: on[j].Add? && on[j].key !in now && on[j].key in file
    requires forall x | x in now && x in file :: now[x] == file[x]
    requires forall x | x in now && x !in file :: exists j :: 0 <= j < |off| && off[j].key == x
    requires forall x | x !in now && x in file :: Add(x) in on
    ensures Clean(off, on, now, file)
  {
  }

  lemma {:induction false} LaterEdits(now: Sync, off: seq<Edit>, on: seq<Edit>, n: nat, took: seq<bool>, file: Sync, k: string)
    requires Clean(off, on, now, file) && n <= |on| && |took| == |off| + n && AllTook(took)
    requires k in After(now, off + on[..n], took, file)
    ensures k in file && After(now, off + on[..n], took, file)[k] == file[k]
  {
    var es := off + on[..n];
    assert forall j | 0 <= j < |es| :: es[j] == (off + on)[j];
    assert forall j | 0 <= j < |off| :: es[j] == off[j];
    assert forall j | 0 <= j < n :: es[|off| + j] == on[j];
    assert DifferentKeys(es);
    if j :| 0 <= j < |es| && es[j].key == k {
      EditedKey(now, es, took, file, j);
    } else {
      UntouchedKey(now, es, took, file, k);
    }
  }

  /** And at the end the file itself is running. */
  lemma {:induction false} AppliedWhole(now: Config, file: Config, keys: seq<string>, names: seq<string>, took: seq<bool>)
    requires Lists(keys, now.sync, file.sync) && PlanOf(now, file, keys, names).refusals == []
    requires |PlanOf(now, file, keys, names).sections| == |took| && AllTook(took)
    ensures After(now.sync, PlanOf(now, file, keys, names).sections, took, file.sync) == file.sync
  {
    var off, on := CleanPlan(now, file, keys, names);
    hide PlanOf, Lists;
    CleanEnds(now.sync, file.sync, off, on, took);
  }

  lemma {:induction false} CleanEnds(now: Sync, file: Sync, off: seq<Edit>, on: seq<Edit>, took: seq<bool>)
    requires Clean(off, on, now, file) && |off + on| == |took| && AllTook(took)
    ensures After(now, off + on, took, file) == file
  {
    var es := off + on;
    var after := After(now, es, took, file);
    assert on[..|on|] == on;
    forall k | k in after ensures k in file && after[k] == file[k] { LaterEdits(now, off, on, |on|, took, file, k); }
    forall k | k in file ensures k in after {
      if k in now {
        assert forall j | 0 <= j < |es| :: es[j].key != k;
        UntouchedKey(now, es, took, file, k);
      } else {
        var j :| 0 <= j < |on| && on[j] == Add(k);
        assert es[|off| + j] == Add(k);
        EditedKey(now, es, took, file, |off| + j);
      }
    }
  }

  // ------------------------------------------- when two sections route one table

  /** An addition that took names the table of a section no edit that took has
      touched. */
  ghost predicate Clash(now: Sync, es: seq<Edit>, took: seq<bool>, file: Sync)
    requires |took| == |es|
  {
    exists i, k :: 0 <= i < |es| && ClashAt(now, es, took, file, i, k)
  }

  ghost predicate ClashAt(now: Sync, es: seq<Edit>, took: seq<bool>, file: Sync, i: nat, k: string)
    requires |took| == |es| && i < |es|
  {
    && took[i] && es[i].Add? && es[i].key in file && k in now && now[k].table == file[es[i].key].table
    && (forall j | 0 <= j < |es| && took[j] :: es[j].key != k)
  }

  /** Each edit is about a key of its own; what joins was not running. */
  ghost predicate Proper(now: Sync, es: seq<Edit>, file: Sync) {
    && DifferentKeys(es)
    && (forall i | 0 <= i < |es| && es[i].Add? :: es[i].key !in now && es[i].key in file)
  }

  /** What runs after the edits is what no edit that took touched, and what
      additions that took brought. */
  lemma {:induction false} AfterIs(now: Sync, es: seq<Edit>, took: seq<bool>, file: Sync, k: string)
    requires |took| == |es| && Proper(now, es, file) && k in After(now, es, took, file)
    ensures || (&& k in now && After(now, es, took, file)[k] == now[k]
                && forall j | 0 <= j < |es| && took[j] :: es[j].key != k)
            || (k in file && After(now, es, took, file)[k] == file[k]
                && exists i :: 0 <= i < |es| && took[i] && es[i] == Add(k))
  {
    if i :| 0 <= i < |es| && took[i] && es[i].key == k {
      EditedKey(now, es, took, file, i);
    } else {
      UntouchedKey(now, es, took, file, k);
    }
  }

  /** Exactly then. */
  lemma {:induction false} OnePerTableExactlyWhen(now: Sync, es: seq<Edit>, took: seq<bool>, file: Sync)
    requires |took| == |es| && Proper(now, es, file) && OnePerTable(now) && OnePerTable(file)
    ensures OnePerTable(After(now, es, took, file)) <==> !Clash(now, es, took, file)
  {
    var after := After(now, es, took, file);
    if Clash(now, es, took, file) {
      var i, k :| 0 <= i < |es| && ClashAt(now, es, took, file, i, k);
      EditedKey(now, es, took, file, i);
      UntouchedKey(now, es, took, file, k);
    } else {
      forall a, b | a in after && b in after && after[a].table == after[b].table ensures a == b {
        AfterIs(now, es, took, file, a);
        AfterIs(now, es, took, file, b);
        hide After;
        NoClashNoTwo(now, es, took, file, after, a, b);
      }
    }
  }

  lemma {:induction false} NoClashNoTwo(now: Sync, es: seq<Edit>, took: seq<bool>, file: Sync, after: Sync, a: string, b: string)
    requires |took| == |es| && OnePerTable(now) && OnePerTable(file) && !Clash(now, es, took, file)
    requires a in after && b in after && after[a].table == after[b].table
    requires forall k | k == a || k == b ::
               || (k in now && after[k] == now[k] && forall j | 0 <= j < |es| && took[j] :: es[j].key != k)
               || (k in file && after[k] == file[k] && exists i :: 0 <= i < |es| && took[i] && es[i] == Add(k))
    ensures a == b
  {
    forall i: nat, k | i < |es| && took[i] && es[i].Add? && es[i].key in file && k in now && now[k].table == file[es[i].key].table
      ensures exists j :: 0 <= j < |es| && took[j] && es[j].key == k
    {
      assert !ClashAt(now, es, took, file, i, k);
    }
  }

  lemma {:induction false} PlanIsProper(now: Config, file: Config, keys: seq<string>, names: seq<string>, i: nat)
    requires Lists(keys, now.sync, file.sync) && i <= |PlanOf(now, file, keys, names).sections|
    ensures Proper(now.sync, PlanOf(now, file, keys, names).sections[..i], file.sync)
  {
    PlanIs(now, file, keys, names);
  }

  /** A reload that got as far as edit `i`, with any of the edits failing, routes
      a table twice exactly when an addition that took names the table of a
      running section that no edit that took touched. */
  lemma {:induction false} TwoSectionsExactlyWhen(now: Config, file: Config, keys: seq<string>, names: seq<string>, took: seq<bool>, i: nat)
    requires Lists(keys, now.sync, file.sync) && i <= |PlanOf(now, file, keys, names).sections| == |took|
    requires OnePerTable(now.sync) && OnePerTable(file.sync)
    ensures var es := PlanOf(now, file, keys, names).sections;
            OnePerTable(After(now.sync, es[..i], took[..i], file.sync)) <==> !Clash(now.sync, es[..i], took[..i], file.sync)
  {
    PlanIsProper(now, file, keys, names, i);
    hide PlanOf, Lists, Proper;
    OnePerTableExactlyWhen(now.sync, PlanOf(now, file, keys, names).sections[..i], took[..i], file.sync);
  }

  /** A section the file adds and the running pipeline can take. */
  predicate Joins(now: Sync, file: Config, a: string) {
    a in file.sync && a !in now && !TakesARestart(file.sync[a], file.mode)
  }

  lemma {:induction false} JoinsAre(keys: seq<string>, now: Sync, file: Config, a: string)
    ensures Add(a) in Additions(keys, now, file).0 <==> a in keys && Joins(now, file, a)
  {
    hide SectionRefusals, TakesARestart;
    if keys != [] {
      var n := |keys| - 1;
      JoinsAre(keys[..n], now, file, a);
      assert keys == keys[..n] + [keys[n]];
    }
  }

  lemma {:induction false} LeavesAre(keys: seq<string>, now: Sync, file: Config, k: string)
    requires k in keys && k in now && k !in file.sync && file.mode != "poll"
    ensures Remove(k, now[k].table, IndexName(k, now[k])) in Removals(keys, now, file).0
  {
    var n := |keys| - 1;
    assert keys == keys[..n] + [keys[n]];
    if k != keys[n] { LeavesAre(keys[..n], now, file, k); }
  }

  /** If every edit takes, no state on the way routes a table twice exactly when
      no section that joins names the table of a section that stays. */
  lemma {:induction false} SafeWhenAllTake(now: Config, file: Config, keys: seq<string>, names: seq<string>, took: seq<bool>)
    requires Lists(keys, now.sync, file.sync) && |PlanOf(now, file, keys, names).sections| == |took| && AllTook(took)
    requires OnePerTable(now.sync) && OnePerTable(file.sync)
    ensures var es := PlanOf(now, file, keys, names).sections;
            (forall i | 0 <= i <= |es| :: OnePerTable(After(now.sync, es[..i], took[..i], file.sync))) <==>
            (forall a, k | Joins(now.sync, file, a) && k in now.sync && k in file.sync ::
               now.sync[k].table != file.sync[a].table)
  {
    var es := PlanOf(now, file, keys, names).sections;
    var n := |es|;
    assert es[..n] == es && took[..n] == took;
    if a, k :| Joins(now.sync, file, a) && k in now.sync && k in file.sync && now.sync[k].table == file.sync[a].table {
      TwoSectionsExactlyWhen(now, file, keys, names, took, n);
      StayingClash(now, file, keys, names, took, a, k);
      assert !OnePerTable(After(now.sync, es[..n], took[..n], file.sync));
    } else {
      forall i | 0 <= i <= n ensures OnePerTable(After(now.sync, es[..i], took[..i], file.sync)) {
        TwoSectionsExactlyWhen(now, file, keys, names, took, i);
        NoStayingClash(now, file, keys, names, took, i);
      }
    }
  }

  lemma {:induction false} StayingClash(now: Config, file: Config, keys: seq<string>, names: seq<string>, took: seq<bool>, a: string, k: string)
    requires Lists(keys, now.sync, file.sync) && |PlanOf(now, file, keys, names).sections| == |took| && AllTook(took)
    requires Joins(now.sync, file, a) && k in now.sync && k in file.sync && now.sync[k].table == file.sync[a].table
    ensures Clash(now.sync, PlanOf(now, file, keys, names).sections, took, file.sync)
  {
    var es := PlanOf(now, file, keys, names).sections;
    JoinsAre(keys, now.sync, file, a);
    PlanIs(now, file, keys, names);
    hide Removals, Additions, TakesARestart, SettingRefusals;
    assert Add(a) in es;
    var i :| 0 <= i < |es| && es[i] == Add(a);
    assert ClashAt(now.sync, es, took, file.sync, i, k);
  }

  lemma {:induction false} NoStayingClash(now: Config, file: Config, keys: seq<string>, names: seq<string>, took: seq<bool>, i: nat)
    requires Lists(keys, now.sync, file.sync) && i <= |PlanOf(now, file, keys, names).sections| == |took| && AllTook(took)
    requires forall a, k | Joins(now.sync, file, a) && k in now.sync && k in file.sync :: now.sync[k].table != file.sync[a].table
    ensures !Clash(now.sync, PlanOf(now, file, keys, names).sections[..i], took[..i], file.sync)
  {
    var (off, on) := (Removals(keys, now.sync, file).0, Additions(keys, now.sync, file).0);
    var es := PlanOf(now, file, keys, names).sections;
    assert es == off + on;
    PlanIs(now, file, keys, names);
    RemovalsAre(keys, now.sync, file);
    assert forall x | 0 <= x < |off| :: es[x] == off[x];
    if Clash(now.sync, es[..i], took[..i], file.sync) {
      var j, k :| 0 <= j < i && ClashAt(now.sync, es[..i], took[..i], file.sync, j, k);
      var a := es[j].key;
      assert Add(a) in on;
      JoinsAre(keys, now.sync, file, a);
      if k !in file.sync {
        LeavesAre(keys, now.sync, file, k);
      }
    }
  }

  /** If any edit may fail, exactly when no section that joins names the table of
      any running section. */
  lemma {:induction false} SafeWhateverFails(now: Config, file: Config, keys: seq<string>, names: seq<string>)
    requires Lists(keys, now.sync, file.sync) && OnePerTable(now.sync) && OnePerTable(file.sync)
    ensures var es := PlanOf(now, file, keys, names).sections;
            (forall took: seq<bool>, i | |took| == |es| && 0 <= i <= |es| ::
               OnePerTable(After(now.sync, es[..i], took[..i], file.sync))) <==>
            (forall a, k | Joins(now.sync, file, a) && k in now.sync :: now.sync[k].table != file.sync[a].table)
  {
    var es := PlanOf(now, file, keys, names).sections;
    if a, k :| Joins(now.sync, file, a) && k in now.sync && now.sync[k].table == file.sync[a].table {
      var took := OnlyAdded(now, file, keys, names, a, k);
      TwoSectionsExactlyWhen(now, file, keys, names, took, |es|);
      assert es[..|es|] == es && took[..|es|] == took;
      assert !OnePerTable(After(now.sync, es[..|es|], took[..|es|], file.sync));
    } else {
      forall took: seq<bool>, i | |took| == |es| && 0 <= i <= |es|
        ensures OnePerTable(After(now.sync, es[..i], took[..i], file.sync))
      {
        TwoSectionsExactlyWhen(now, file, keys, names, took, i);
        NoClashAtAll(now, file, keys, names, took, i);
      }
    }
  }

  lemma {:induction false} OnlyAdded(now: Config, file: Config, keys: seq<string>, names: seq<string>, a: string, k: string)
    returns (took: seq<bool>)
    requires Lists(keys, now.sync, file.sync)
    requires Joins(now.sync, file, a) && k in now.sync && now.sync[k].table == file.sync[a].table
    ensures |took| == |PlanOf(now, file, keys, names).sections|
    ensures Clash(now.sync, PlanOf(now, file, keys, names).sections, took, file.sync)
  {
    var es := PlanOf(now, file, keys, names).sections;
    JoinsAre(keys, now.sync, file, a);
    hide Removals, Additions, TakesARestart, SettingRefusals;
    assert Add(a) in es;
    var i :| 0 <= i < |es| && es[i] == Add(a);
    took := seq(|es|, j => j == i);
    assert ClashAt(now.sync, es, took, file.sync, i, k);
  }

  lemma {:induction false} NoClashAtAll(now: Config, file: Config, keys: seq<string>, names: seq<string>, took: seq<bool>, i: nat)
    requires Lists(keys, now.sync, file.sync) && i <= |PlanOf(now, file, keys, names).sections| == |took|
    requires forall a, k | Joins(now.sync, file, a) && k in now.sync :: now.sync[k].table != file.sync[a].table
    ensures !Clash(now.sync, PlanOf(now, file, keys, names).sections[..i], took[..i], file.sync)
  {
    var (off, on) := (Removals(keys, now.sync, file).0, Additions(keys, now.sync, file).0);
    var es := PlanOf(now, file, keys, names).sections;
    assert es == off + on;
    RemovalsAre(keys, now.sync, file);
    assert forall x | 0 <= x < |off| :: es[x] == off[x];
    if Clash(now.sync, es[..i], took[..i], file.sync) {
      var j, k :| 0 <= j < i && ClashAt(now.sync, es[..i], took[..i], file.sync, j, k);
      var a := es[j].key;
      assert Add(a) in on;
      JoinsAre(keys, now.sync, file, a);
    }
  }

  /** Nothing refused and nothing failed is one such case: sections that stay are
      then the file's own. */
  lemma {:induction false} NeverTwoSections(now: Config, file: Config, keys: seq<string>, names: seq<string>, took: seq<bool>, i: nat)
    requires Lists(keys, now.sync, file.sync) && PlanOf(now, file, keys, names).refusals == []
    requires i <= |PlanOf(now, file, keys, names).sections| == |took| && AllTook(took)
    requires OnePerTable(now.sync) && OnePerTable(file.sync)
    ensures OnePerTable(After(now.sync, PlanOf(now, file, keys, names).sections[..i], took[..i], file.sync))
  {
    var off, on := CleanPlan(now, file, keys, names);
    assert forall a, k | Joins(now.sync, file, a) && k in now.sync && k in file.sync :: now.sync[k].table != file.sync[a].table;
    hide PlanOf, After, Clean, Joins;
    SafeWhenAllTake(now, file, keys, names, took);
  }

  // ------------------------------------------------------------ the two ways it happens

  const plain := Section("t", None, None, false, None, None, None, None, [], None,
                         None, [], map[], map[], map[], [], None, None, None, None, None)

  lemma {:induction false} TwoKeys(a: string, b: string, now: Sync, file: Config)
    ensures Removals([a, b], now, file) ==
            (RemovalAt(a, now, file).0 + RemovalAt(b, now, file).0, RemovalAt(a, now, file).1 + RemovalAt(b, now, file).1)
    ensures Additions([a, b], now, file) ==
            (AdditionAt(a, now, file).0 + AdditionAt(b, now, file).0, AdditionAt(a, now, file).1 + AdditionAt(b, now, file).1)
  {
    hide RemovalAt, AdditionAt;
    assert [a, b][..1] == [a] && [a][..0] == [];
    var (e, r) := RemovalAt(a, now, file);
    var (f, s) := AdditionAt(a, now, file);
    assert [] + e == e && [] + r == r && [] + f == f && [] + s == s;
    assert Removals([a], now, file) == (e, r) && Additions([a], now, file) == (f, s);
  }

  /** A removal that fails before an addition that does not: both route `t`. */
  lemma {:induction false} FailedRemovalRoutesTwice(mode: string)
    requires mode != "poll"
    ensures var now, file := Config(mode, map[], map["a" := plain]), Config(mode, map[], map["b" := plain]);
            var es := PlanOf(now, file, ["a", "b"], []).sections;
            && es == [Remove("a", "t", "a"), Add("b")]
            && OnePerTable(now.sync) && OnePerTable(file.sync)
            && !OnePerTable(After(now.sync, es, [false, true], file.sync))
  {
    var now, file := Config(mode, map[], map["a" := plain]), Config(mode, map[], map["b" := plain]);
    var keys := ["a", "b"];
    assert "a" != "b" by { assert "a"[0] != "b"[0]; }
    TwoKeys("a", "b", now.sync, file);
    assert RemovalAt("a", now.sync, file) == ([Remove("a", "t", "a")], []) && RemovalAt("b", now.sync, file) == ([], []);
    assert AdditionAt("a", now.sync, file) == ([], []) && AdditionAt("b", now.sync, file) == ([Add("b")], []);
    assert [Remove("a", "t", "a")] + [] == [Remove("a", "t", "a")] && [] + [Add("b")] == [Add("b")];
    assert Removals(keys, now.sync, file) == ([Remove("a", "t", "a")], []);
    assert Additions(keys, now.sync, file) == ([Add("b")], []);
    var es := [Remove("a", "t", "a"), Add("b")];
    assert ClashAt(now.sync, es, [false, true], file.sync, 1, "a");
    OnePerTableExactlyWhen(now.sync, es, [false, true], file.sync);
  }

  lemma {:induction false} OnlyFirst(fields: seq<SectionField>, a: Section, b: Section)
    requires fields != [] && Differs(a, b, fields[0]) && forall i | 1 <= i < |fields| :: !Differs(a, b, fields[i])
    ensures Differing(fields, a, b) == [fields[0]]
  {
    var n := |fields| - 1;
    hide Differs;
    if n > 0 { OnlyFirst(fields[..n], a, b); } else { assert Differing(fields[..0], a, b) == []; }
  }

  lemma {:induction false} TableChangeIsRefused()
    ensures SectionRefusals("a", plain, plain.(table := "u")) == [Identity("a", TableField)]
  {
    assert "t"[0] != "u"[0];
    OnlyFirst(IdentityFields, plain, plain.(table := "u"));
    assert IdentityChanges(plain, plain.(table := "u")) == [TableField];
  }

  /** A refused change of table beside a new section for the old one: both
      route `t`. */
  lemma {:induction false} RefusedChangeRoutesTwice(mode: string)
    requires mode != "poll"
    ensures var now := Config(mode, map[], map["a" := plain]);
            var file := Config(mode, map[], map["a" := plain.(table := "u"), "b" := plain]);
            var es := PlanOf(now, file, ["a", "b"], []).sections;
            && es == [Add("b")] && PlanOf(now, file, ["a", "b"], []).refusals == [Identity("a", TableField)]
            && OnePerTable(now.sync) && OnePerTable(file.sync)
            && !OnePerTable(After(now.sync, es, [true], file.sync))
  {
    var now := Config(mode, map[], map["a" := plain]);
    var file := Config(mode, map[], map["a" := plain.(table := "u"), "b" := plain]);
    var keys := ["a", "b"];
    assert "a" != "b" by { assert "a"[0] != "b"[0]; }
    assert "t" != "u" by { assert "t"[0] != "u"[0]; }
    TwoKeys("a", "b", now.sync, file);
    assert Removals(keys, now.sync, file) == ([], []);
    TableChangeIsRefused();
    hide SectionRefusals;
    assert AdditionAt("a", now.sync, file) == ([], [Identity("a", TableField)]) && AdditionAt("b", now.sync, file) == ([Add("b")], []);
    assert [] + [Add("b")] == [Add("b")] && [Identity("a", TableField)] + [] == [Identity("a", TableField)];
    assert Additions(keys, now.sync, file) == ([Add("b")], [Identity("a", TableField)]);
    assert ClashAt(now.sync, [Add("b")], [true], file.sync, 0, "a");
    OnePerTableExactlyWhen(now.sync, [Add("b")], [true], file.sync);
  }
}
