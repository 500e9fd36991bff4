/** What a plan says of each key and each setting, over the fields of the two
    files. */
module Refusals {
  import opened Wrappers
  import opened Reload

  // -------------------------------------------------------- a key's own refusals

  predicate Concerns(r: Refusal, k: string) {
    !r.Setting? && r.key == k
  }

  /** The refusals that are about the key, in order. */
  function About(rs: seq<Refusal>, k: string): seq<Refusal> {
    if rs == [] then []
    else
      var n := |rs| - 1;
      About(rs[..n], k) + if Concerns(rs[n], k) then [rs[n]] else []
  }

  lemma {:induction false} AboutConcat(a: seq<Refusal>, b: seq<Refusal>, k: string)
    ensures About(a + b, k) == About(a, k) + About(b, k)
  {
    if b == [] {
      assert a + b == a;
    } else {
      var n := |b| - 1;
      assert (a + b)[..|a + b| - 1] == a + b[..n];
      AboutConcat(a, b[..n], k);
    }
  }

  lemma {:induction false} AboutAll(rs: seq<Refusal>, k: string)
    ensures (forall i | 0 <= i < |rs| :: Concerns(rs[i], k)) ==> About(rs, k) == rs
    ensures (forall i | 0 <= i < |rs| :: !Concerns(rs[i], k)) ==> About(rs, k) == []
  {
    if rs != [] {
      var n := |rs| - 1;
      AboutAll(rs[..n], k);
      assert rs == rs[..n] + [rs[n]];
    }
  }

  lemma {:induction false} AboutIsIn(rs: seq<Refusal>, k: string, r: Refusal)
    requires Concerns(r, k)
    ensures r in About(rs, k) <==> r in rs
  {
    if rs != [] {
      var n := |rs| - 1;
      AboutIsIn(rs[..n], k, r);
      assert rs == rs[..n] + [rs[n]];
    }
  }

  lemma SectionIsConcerned(key: string, a: Section, b: Section, k: string)
    ensures About(SectionRefusals(key, a, b), k) == if k == key then SectionRefusals(key, a, b) else []
  {
    var rs := SectionRefusals(key, a, b);
    hide IdentityChanges, ShapeChanges;
    assert forall i | 0 <= i < |rs| :: Concerns(rs[i], key);
    AboutAll(rs, k);
  }

  lemma AboutOne(x: string, now: Sync, file: Config, k: string)
    ensures About(RemovalAt(x, now, file).1, k) == if x == k then RemovalAt(k, now, file).1 else []
    ensures About(AdditionAt(x, now, file).1, k) == if x == k then AdditionAt(k, now, file).1 else []
  {
    AboutAll(RemovalAt(x, now, file).1, k);
    AboutAll(AdditionAt(x, now, file).1, k);
    if x in file.sync && x in now { SectionIsConcerned(x, now[x], file.sync[x], k); }
    hide SectionRefusals, TakesARestart;
  }

  lemma {:induction false} AboutRemovals(keys: seq<string>, now: Sync, file: Config, k: string)
    requires forall i, j | 0 <= i < j < |keys| :: keys[i] != keys[j]
    ensures About(Removals(keys, now, file).1, k) == if k in keys then RemovalAt(k, now, file).1 else []
  {
    hide RemovalAt, About;
    if keys == [] {
      AboutAll([], k);
    } else {
      var n := |keys| - 1;
      AboutRemovals(keys[..n], now, file, k);
      var rs, r := Removals(keys[..n], now, file).1, RemovalAt(keys[n], now, file).1;
      assert Removals(keys, now, file).1 == rs + r;
      AboutConcat(rs, r, k);
      AboutOne(keys[n], now, file, k);
      LastKey(keys, k);
    }
  }

  lemma {:induction false} AboutAdditions(keys: seq<string>, now: Sync, file: Config, k: string)
    requires forall i, j | 0 <= i < j < |keys| :: keys[i] != keys[j]
    ensures About(Additions(keys, now, file).1, k) == if k in keys then AdditionAt(k, now, file).1 else []
  {
    hide AdditionAt, About;
    if keys == [] {
      AboutAll([], k);
    } else {
      var n := |keys| - 1;
      AboutAdditions(keys[..n], now, file, k);
      var rs, r := Additions(keys[..n], now, file).1, AdditionAt(keys[n], now, file).1;
      assert Additions(keys, now, file).1 == rs + r;
      AboutConcat(rs, r, k);
      AboutOne(keys[n], now, file, k);
      LastKey(keys, k);
    }
  }

  lemma LastKey(keys: seq<string>, k: string)
    requires keys != [] && forall i, j | 0 <= i < j < |keys| :: keys[i] != keys[j]
    ensures var n := |keys| - 1; (k in keys <==> k in keys[..n] || k == keys[n]) && keys[n] !in keys[..n]
  {
  }

  /** An edit is in the plan exactly when its own key asks for it. */
  lemma {:induction false} RemovalsPlanned(keys: seq<string>, now: Sync, file: Config, e: Edit)
    ensures e in Removals(keys, now, file).0 <==> e.key in keys && e in RemovalAt(e.key, now, file).0
  {
    if keys != [] {
      var n := |keys| - 1;
      RemovalsPlanned(keys[..n], now, file, e);
      assert keys == keys[..n] + [keys[n]];
    }
  }

  lemma {:induction false} AdditionsPlanned(keys: seq<string>, now: Sync, file: Config, e: Edit)
    ensures e in Additions(keys, now, file).0 <==> e.key in keys && e in AdditionAt(e.key, now, file).0
  {
    hide SectionRefusals, TakesARestart;
    if keys != [] {
      var n := |keys| - 1;
      AdditionsPlanned(keys[..n], now, file, e);
      assert keys == keys[..n] + [keys[n]];
    }
  }

  lemma PlannedExactlyWhen(now: Config, file: Config, keys: seq<string>, names: seq<string>, e: Edit)
    requires Lists(keys, now.sync, file.sync)
    ensures e in PlanOf(now, file, keys, names).sections <==>
            e in RemovalAt(e.key, now.sync, file).0 || e in AdditionAt(e.key, now.sync, file).0
  {
    RemovalsPlanned(keys, now.sync, file, e);
    AdditionsPlanned(keys, now.sync, file, e);
    assert e.key in keys || (e.key !in now.sync && e.key !in file.sync);
    hide SectionRefusals, TakesARestart, Removals, Additions, SettingRefusals;
  }

  lemma {:induction false} SettingsAre(now: Config, file: Config, names: seq<string>, k: string)
    ensures About(SettingRefusals(now, file, names), k) == []
    ensures forall r :: r in SettingRefusals(now, file, names) ==> r.Setting?
    ensures forall n :: Setting(n) in SettingRefusals(now, file, names) <==> n in names && !SameSetting(now, file, n)
  {
    var rs := SettingRefusals(now, file, names);
    if names != [] {
      var m := |names| - 1;
      SettingsAre(now, file, names[..m], k);
      assert names == names[..m] + [names[m]];
    }
    assert forall i | 0 <= i < |rs| :: rs[i] in rs;
    AboutAll(rs, k);
  }

  /** Both files give the setting the same value, or neither gives it one. */
  predicate SameSetting(now: Config, file: Config, n: string) {
    if n in now.fixed then n in file.fixed && file.fixed[n] == now.fixed[n] else n !in file.fixed
  }

  /** All a plan refuses about a key is what its removal or its addition refuses. */
  lemma PlanAbout(now: Config, file: Config, keys: seq<string>, names: seq<string>, k: string)
    requires Lists(keys, now.sync, file.sync) && (k in now.sync || k in file.sync)
    ensures var plan := PlanOf(now, file, keys, names);
            About(plan.refusals, k) == RemovalAt(k, now.sync, file).1 + AdditionAt(k, now.sync, file).1
  {
    SettingsAre(now, file, names, k);
    AboutRemovals(keys, now.sync, file, k);
    AboutAdditions(keys, now.sync, file, k);
    hide SectionRefusals, TakesARestart, RemovalAt, AdditionAt;
    var s, off, on := SettingRefusals(now, file, names), Removals(keys, now.sync, file).1, Additions(keys, now.sync, file).1;
    AboutConcat(s + off, on, k);
    AboutConcat(s, off, k);
  }

  // --------------------------------------------------- joining and leaving

  /** A section joins the running pipeline exactly when it is new, the source does
      not poll, and it has nothing that is decided where the stream is built. */
  lemma JoinsExactlyWhen(now: Config, file: Config, keys: seq<string>, names: seq<string>, k: string)
    requires Lists(keys, now.sync, file.sync)
    ensures Add(k) in PlanOf(now, file, keys, names).sections <==>
            && k in file.sync && k !in now.sync && file.mode != "poll"
            && file.sync[k].children == [] && file.sync[k].join == None && file.sync[k].fanOut == None
            && file.sync[k].aggregates == [] && forall name | file.sync[k].index == Some(name) :: '{' !in name
  {
    PlannedExactlyWhen(now, file, keys, names, Add(k));
    hide SectionRefusals, PlanOf;
  }

  /** A new section either joins with nothing refused, or is refused with the
      restart it takes and nothing else. */
  lemma NewSectionJoinsOrIsRefused(now: Config, file: Config, keys: seq<string>, names: seq<string>, k: string)
    requires Lists(keys, now.sync, file.sync) && k in file.sync && k !in now.sync
    ensures var plan := PlanOf(now, file, keys, names);
            About(plan.refusals, k) == if Add(k) in plan.sections then [] else [JoiningTakesARestart(k)]
  {
    PlanAbout(now, file, keys, names, k);
    JoinsExactlyWhen(now, file, keys, names, k);
    hide SectionRefusals, PlanOf;
  }

  /** A section leaves the running pipeline exactly when the file has dropped it
      and the source does not poll; the edit names its table and the index it was
      written to. Where the source polls that is refused, and nothing else. */
  lemma LeavesExactlyWhen(now: Config, file: Config, keys: seq<string>, names: seq<string>, k: string, table: string, index: string)
    requires Lists(keys, now.sync, file.sync)
    ensures var plan := PlanOf(now, file, keys, names);
            && (Remove(k, table, index) in plan.sections <==>
                  && k in now.sync && k !in file.sync && file.mode != "poll" && table == now.sync[k].table
                  && (now.sync[k].index == Some(index) || (now.sync[k].index == None && index == k)))
            && (k in now.sync && k !in file.sync ==>
                  About(plan.refusals, k) == if file.mode == "poll" then [RemovedWhilePolling(k)] else [])
  {
    PlannedExactlyWhen(now, file, keys, names, Remove(k, table, index));
    if k in now.sync { PlanAbout(now, file, keys, names, k); }
    hide SectionRefusals, TakesARestart, PlanOf;
  }

  /** Whatever leaves leaves before anything joins. */
  lemma RemovalsComeFirst(now: Config, file: Config, keys: seq<string>, names: seq<string>, i: nat, j: nat)
    requires i < j < |PlanOf(now, file, keys, names).sections| && PlanOf(now, file, keys, names).sections[i].Add?
    ensures PlanOf(now, file, keys, names).sections[j].Add?
  {
    AboutRemovalsKind(keys, now.sync, file);
    AboutAdditionsKind(keys, now.sync, file);
    hide Removals, Additions, SettingRefusals;
    var off, on := Removals(keys, now.sync, file).0, Additions(keys, now.sync, file).0;
    assert PlanOf(now, file, keys, names).sections == off + on;
    assert forall x | 0 <= x < |off| :: off[x].Remove?;
  }

  lemma {:induction false} AboutRemovalsKind(keys: seq<string>, now: Sync, file: Config)
    ensures forall x | 0 <= x < |Removals(keys, now, file).0| :: Removals(keys, now, file).0[x].Remove?
  {
    if keys != [] { AboutRemovalsKind(keys[..|keys| - 1], now, file); }
  }

  lemma {:induction false} AboutAdditionsKind(keys: seq<string>, now: Sync, file: Config)
    ensures forall x | 0 <= x < |Additions(keys, now, file).0| :: Additions(keys, now, file).0[x].Add?
  {
    hide SectionRefusals, TakesARestart;
    if keys != [] { AboutAdditionsKind(keys[..|keys| - 1], now, file); }
  }

  // ------------------------------------------------------------ what changed

  /** A setting outside the sections is refused exactly when the files differ on
      it. */
  lemma SettingIsRefusedExactlyWhen(now: Config, file: Config, keys: seq<string>, names: seq<string>, n: string)
    ensures Setting(n) in PlanOf(now, file, keys, names).refusals <==> n in names && !SameSetting(now, file, n)
  {
    SettingsAre(now, file, names, n);
    NoSettings(keys, now.sync, file);
    hide Removals, Additions, SettingRefusals;
  }

  lemma {:induction false} NoSettings(keys: seq<string>, now: Sync, file: Config)
    ensures forall r | r in Removals(keys, now, file).1 :: !r.Setting?
    ensures forall r | r in Additions(keys, now, file).1 :: !r.Setting?
  {
    if keys != [] {
      var n := |keys| - 1;
      NoSettings(keys[..n], now, file);
      hide IdentityChanges, ShapeChanges;
      var k := keys[n];
      assert k in file.sync && k in now ==> forall r | r in SectionRefusals(k, now[k], file.sync[k]) :: !r.Setting?;
      hide SectionRefusals, TakesARestart;
    }
  }

  /** What files a row: a field of these changed. */
  predicate Refiled(a: Section, b: Section, f: SectionField) {
    match f
    case TableField => a.table != b.table
    case IndexField => a.index != b.index
    case PrimaryKeyField => a.primaryKey != b.primaryKey
    case AppendOnlyField => a.appendOnly != b.appendOnly
    case IdField => a.id != b.id
    case RoutingField => a.routing != b.routing
    case FanOutField => a.fanOut != b.fanOut
    case JoinField => a.join != b.join
    case ChildrenField => a.children != b.children
    case _ => false
  }

  /** What shapes its document. */
  predicate Reshapes(a: Section, b: Section, f: SectionField) {
    match f
    case ColumnsField => a.columns != b.columns
    case ExcludeColumnsField => a.excludeColumns != b.excludeColumns
    case TransformField => a.transform != b.transform
    case FieldsField => a.fields != b.fields
    case ConstantsField => a.constants != b.constants
    case AggregatesField => a.aggregates != b.aggregates
    case WhereField => a.filter != b.filter
    case PipelineField => a.pipeline != b.pipeline
    case SoftDeleteField => a.softDelete != b.softDelete
    case MappingFileField => a.mappingFile != b.mappingFile
    case MappingField => a.mapping != b.mapping
    case _ => false
  }

  /** Every difference is refused by name: what identifies a row each on its own,
      what shapes a document all together where nothing of the first kind changed,
      the poll column in either case. */
  ghost predicate Named(k: string, a: Section, b: Section, rs: seq<Refusal>) {
    && (forall f :: Identity(k, f) in rs <==> Refiled(a, b, f))
    && (forall fs | Reshaped(k, fs) in rs :: (forall f :: f in fs <==> Reshapes(a, b, f)) && forall f :: !Refiled(a, b, f))
    && ((exists fs :: Reshaped(k, fs) in rs) <==> (exists f :: Reshapes(a, b, f)) && forall f :: !Refiled(a, b, f))
    && (PollColumn(k) in rs <==> a.pollColumn != b.pollColumn)
  }

  lemma NamedToo(k: string, a: Section, b: Section, own: seq<Refusal>, rs: seq<Refusal>)
    requires Named(k, a, b, own) && About(rs, k) == own
    ensures Named(k, a, b, rs)
  {
    OwnAreAll(rs, own, k);
    hide Refiled, Reshapes, About;
    assert forall fs :: Reshaped(k, fs) in rs <==> Reshaped(k, fs) in own;
  }

  /** A section both files have is left as it is, and every difference refused. */
  lemma ChangesAreRefusedByName(now: Config, file: Config, keys: seq<string>, names: seq<string>, k: string)
    requires Lists(keys, now.sync, file.sync) && k in now.sync && k in file.sync
    ensures var plan, a, b := PlanOf(now, file, keys, names), now.sync[k], file.sync[k];
            && (forall e | e in plan.sections :: e.key != k)
            && Named(k, a, b, plan.refusals)
            && (About(plan.refusals, k) == [] <==> a == b)
  {
    var plan, a, b := PlanOf(now, file, keys, names), now.sync[k], file.sync[k];
    var own := SectionRefusals(k, a, b);
    PlanAbout(now, file, keys, names, k);
    assert RemovalAt(k, now.sync, file).1 == [] && AdditionAt(k, now.sync, file).1 == own;
    assert RemovalAt(k, now.sync, file).0 == [] && AdditionAt(k, now.sync, file).0 == [];
    hide *;
    assert [] + own == own;
    RefusedUnlessTheSame(k, a, b);
    forall e | e in plan.sections ensures e.key != k { PlannedExactlyWhen(now, file, keys, names, e); }
    OwnRefusals(k, a, b);
    NamedToo(k, a, b, own, plan.refusals);
  }

  lemma OwnAreAll(rs: seq<Refusal>, own: seq<Refusal>, k: string)
    requires About(rs, k) == own
    ensures forall f :: Identity(k, f) in rs <==> Identity(k, f) in own
    ensures forall fs :: Reshaped(k, fs) in rs <==> Reshaped(k, fs) in own
    ensures PollColumn(k) in rs <==> PollColumn(k) in own
  {
    forall r | Concerns(r, k) ensures r in rs <==> r in own { AboutIsIn(rs, k, r); }
    assert forall f :: Concerns(Identity(k, f), k);
    assert forall fs :: Concerns(Reshaped(k, fs), k);
    assert Concerns(PollColumn(k), k);
  }

  lemma OwnRefusals(k: string, a: Section, b: Section)
    ensures Named(k, a, b, SectionRefusals(k, a, b))
  {
    var identity, shape, own := IdentityChanges(a, b), ShapeChanges(a, b), SectionRefusals(k, a, b);
    OwnIn(k, a, b);
    NamesAre(a, b);
    hide Refiled, Reshapes, IdentityChanges, ShapeChanges, SectionRefusals;
    assert identity != [] ==> identity[0] in identity;
    assert shape != [] ==> shape[0] in shape;
    assert (exists fs :: Reshaped(k, fs) in own) <==> Reshaped(k, shape) in own;
  }

  lemma IdentityIs(a: Section, b: Section, f: SectionField)
    ensures f in IdentityChanges(a, b) <==> Refiled(a, b, f)
  {
    DifferingAre(IdentityFields, a, b);
    hide Differing;
  }

  lemma ShapeIs(a: Section, b: Section, f: SectionField)
    ensures f in ShapeChanges(a, b) <==> Reshapes(a, b, f)
  {
    DifferingAre(ShapeFields, a, b);
    hide Differing;
  }

  lemma NamesAre(a: Section, b: Section)
    ensures forall f :: f in IdentityChanges(a, b) <==> Refiled(a, b, f)
    ensures forall f :: f in ShapeChanges(a, b) <==> Reshapes(a, b, f)
  {
    hide Refiled, Reshapes, IdentityChanges, ShapeChanges;
    forall f ensures f in IdentityChanges(a, b) <==> Refiled(a, b, f) { IdentityIs(a, b, f); }
    forall f ensures f in ShapeChanges(a, b) <==> Reshapes(a, b, f) { ShapeIs(a, b, f); }
  }

  lemma OwnIn(k: string, a: Section, b: Section)
    ensures var identity, shape, own := IdentityChanges(a, b), ShapeChanges(a, b), SectionRefusals(k, a, b);
            && (forall f :: Identity(k, f) in own <==> f in identity)
            && (forall fs :: Reshaped(k, fs) in own <==> identity == [] && shape != [] && fs == shape)
            && (PollColumn(k) in own <==> a.pollColumn != b.pollColumn)
  {
    var identity, shape, own := IdentityChanges(a, b), ShapeChanges(a, b), SectionRefusals(k, a, b);
    hide IdentityChanges, ShapeChanges;
    if identity == [] {
      if shape != [] { assert own[0] == Reshaped(k, shape); }
    } else {
      forall f | f in identity ensures Identity(k, f) in own {
        var i :| 0 <= i < |identity| && identity[i] == f;
        assert own[i] == Identity(k, f);
      }
    }
  }
}
