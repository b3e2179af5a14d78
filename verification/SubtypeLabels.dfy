/** Listing the subtypes of an input method.  Labels may name string resources; the list resolves
    all of them with one request, the single lookup resolves one. */
module SubtypeLabels {
  import opened Options

  datatype Subtype = Subtype(labelText: string, id: string, icon: string, mode: string, locale: string)

  datatype SubProperty = SubProperty(
    labelText: string, labelId: nat, name: string, id: string, mode: string, locale: string, language: string,
    icon: string, iconId: nat)

  /** The bundle the subtypes belong to and the services the code calls: number parsing, the
      input-type registry, and the string resources of the bundle. */
  datatype Env = Env(
    bundleName: string, atoi: string -> int, isInputType: string -> bool, getString: nat -> string)

  // ------------------------------------------------------------------ one subtype

  /** Position of the first `c`, or the length. */
  function Find(s: string, c: char): (pos: nat)
    ensures pos <= |s| && (pos < |s| ==> s[pos] == c) && c !in s[..pos]
  {
    if s == [] || s[0] == c then 0 else
    var p := Find(s[1..], c);
    assert s[..1 + p] == [s[0]] + s[1..][..p];
    1 + p
  }

  /** The resource number after the colon; zero when there is none. */
  function ResourceId(env: Env, s: string): nat {
    var pos := Find(s, ':');
    if pos + 1 >= |s| then 0 else
    var n := env.atoi(s[pos + 1..]);
    if n > 0 then n else 0
  }

  function Language(locale: string): string {
    var dash := Find(locale, '-');
    var byDash := if dash < |locale| then locale[..dash] else locale;
    var under := Find(locale, '_');
    var cut := if under < |locale| then locale[..under] else byDash;
    if cut == "en" then "english" else if cut == "zh" then "chinese" else cut
  }

  /** The finished record of a subtype. */
  function Resolved(env: Env, t: Subtype): SubProperty {
    var labelId := ResourceId(env, t.labelText);
    SubProperty(
      if labelId > 0 then env.getString(labelId) else t.labelText, labelId, env.bundleName, t.id, t.mode, t.locale,
      Language(t.locale), t.icon, ResourceId(env, t.icon))
  }

  lemma FindAfter(a: string, c: char, b: string)
    requires c !in a
    ensures Find(a + [c] + b, c) == |a|
  {
    var s := a + [c] + b;
    var p := Find(s, c);
    assert s[|a|] == c;
    assert forall i :: 0 <= i < |a| ==> s[i] == a[i];
  }

  /** The language is what comes before the first separator, an underscore before a dash, with the two old
      names spelled out. */
  lemma LanguageIs(a: string, b: string)
    requires '-' !in a && '_' !in a
    ensures var name := if a == "en" then "english" else if a == "zh" then "chinese" else a;
      && Language(a) == name && Language(a + ['_'] + b) == name
      && ('_' !in b ==> Language(a + ['-'] + b) == name)
  {
    FindAfter(a, '_', b);
    FindAfter(a, '-', b);
    assert (a + ['_'] + b)[..|a|] == a && (a + ['-'] + b)[..|a|] == a;
    NotFound(a, '-');
    NotFound(a, '_');
    if '_' !in b {
      NotFound(a + ['-'] + b, '_');
    }
  }

  lemma NotFound(s: string, c: char)
    requires c !in s
    ensures Find(s, c) == |s|
  {
  }

  /** With an underscore after a dash the dash is part of the language. */
  lemma DashBeforeUnderscore(a: string, b: string, c: string)
    requires '_' !in a && '_' !in b
    ensures Language(a + ['-'] + b + ['_'] + c) == a + ['-'] + b
  {
    var l := a + ['-'] + b;
    FindAfter(l, '_', c);
    assert l[|a|] == '-' && (l + ['_'] + c)[..|l|] == l;
    assert "en"[0] == 'e' && |"en"| == 2 && |"zh"| == 2 && '-' !in "en" && '-' !in "zh";
    assert '-' in l;
  }

  /** A label or icon names a resource with a positive number after its first colon. */
  lemma ResourceIdIs(env: Env, a: string, b: string)
    requires ':' !in a
    ensures ResourceId(env, a) == 0 && ResourceId(env, a + [':']) == 0
    ensures b != "" ==> ResourceId(env, a + [':'] + b) == if env.atoi(b) > 0 then env.atoi(b) else 0
  {
    NotFound(a, ':');
    FindAfter(a, ':', "");
    FindAfter(a, ':', b);
    assert a + [':'] + "" == a + [':'];
    assert (a + [':'] + b)[|a| + 1..] == b;
  }

  /** A finished record: the label is resolved if it names a resource, everything else is carried over. */
  lemma ResolvedIs(env: Env, t: Subtype)
    ensures var p := Resolved(env, t);
      && (p.id, p.mode, p.locale, p.icon, p.name) == (t.id, t.mode, t.locale, t.icon, env.bundleName)
      && p.language == Language(t.locale)
      && (p.labelId, p.iconId) == (ResourceId(env, t.labelText), ResourceId(env, t.icon))
      && (p.labelId > 0 ==> p.labelText == env.getString(p.labelId))
      && (p.labelId == 0 ==> p.labelText == t.labelText)
  {
  }

  // ------------------------------------------------------------------ the profile

  function Kept(env: Env, ts: seq<Subtype>): seq<Subtype> {
    if ts == [] then []
    else Kept(env, ts[..|ts| - 1]) + if env.isInputType(ts[|ts| - 1].id) then [] else [ts[|ts| - 1]]
  }

  function ResolveAll(env: Env, ts: seq<Subtype>): (r: seq<SubProperty>)
    ensures |r| == |ts| && forall i :: 0 <= i < |ts| ==> r[i] == Resolved(env, ts[i])
  {
    seq(|ts|, i requires 0 <= i < |ts| => Resolved(env, ts[i]))
  }

  /** The numbers of the kept labels, in order: what the batch asks for. */
  function LabelIds(env: Env, ts: seq<Subtype>): seq<nat> {
    if ts == [] then []
    else
      var t := ts[|ts| - 1];
      LabelIds(env, ts[..|ts| - 1]) +
        if env.isInputType(t.id) || ResourceId(env, t.labelText) == 0 then [] else [ResourceId(env, t.labelText)]
  }

  /** The batch service answers each number as the single service would. */
  function GetStringByIdList(env: Env, ids: seq<nat>): seq<string> {
    seq(|ids|, i requires 0 <= i < |ids| => env.getString(ids[i]))
  }

  predicate FirstWithId(ts: seq<Subtype>, id: string, i: nat) {
    i < |ts| && ts[i].id == id && forall j :: 0 <= j < i ==> ts[j].id != id
  }

  ghost predicate DistinctIds(ts: seq<Subtype>) {
    forall i, j :: 0 <= i < j < |ts| ==> ts[i].id != ts[j].id
  }

  lemma {:induction false} LabelIdsSplit(env: Env, ts: seq<Subtype>, k: nat)
    requires k <= |ts|
    ensures LabelIds(env, ts[..k]) <= LabelIds(env, ts)
    decreases |ts| - k
  {
    if k == |ts| {
      assert ts[..k] == ts;
    } else {
      LabelIdsSplit(env, ts, k + 1);
      assert ts[..k + 1][..k] == ts[..k];
    }
  }

  /** The label at the batch position of a prefix is the one the next kept subtype names. */
  lemma NextLabel(env: Env, ts: seq<Subtype>, i: nat)
    requires i < |ts|
    ensures var t, k := ts[i], |LabelIds(env, ts[..i])|;
      var names := !env.isInputType(t.id) && ResourceId(env, t.labelText) > 0;
      && |LabelIds(env, ts[..i + 1])| == (if names then k + 1 else k)
      && (names ==> k < |LabelIds(env, ts)| && LabelIds(env, ts)[k] == ResourceId(env, t.labelText))
  {
    LabelIdsSplit(env, ts, i + 1);
    assert ts[..i + 1][..i] == ts[..i];
  }

  lemma NextKept(env: Env, ts: seq<Subtype>, i: nat)
    requires i < |ts|
    ensures ResolveAll(env, Kept(env, ts[..i + 1])) ==
      ResolveAll(env, Kept(env, ts[..i])) + if env.isInputType(ts[i].id) then [] else [Resolved(env, ts[i])]
  {
    assert ts[..i + 1][..i] == ts[..i];
  }

  lemma {:induction false} KeptAreMembers(env: Env, ts: seq<Subtype>, k: nat) returns (i: nat)
    requires k < |Kept(env, ts)|
    ensures i < |ts| && Kept(env, ts)[k] == ts[i] && !env.isInputType(ts[i].id)
  {
    var front := ts[..|ts| - 1];
    if k < |Kept(env, front)| {
      i := KeptAreMembers(env, front, k);
    } else {
      i := |ts| - 1;
    }
  }

  lemma {:induction false} KeptSplit(env: Env, ts: seq<Subtype>, k: nat)
    requires k <= |ts|
    ensures Kept(env, ts[..k]) <= Kept(env, ts)
    decreases |ts| - k
  {
    if k == |ts| {
      assert ts[..k] == ts;
    } else {
      KeptSplit(env, ts, k + 1);
      assert ts[..k + 1][..k] == ts[..k];
    }
  }

  /** The first subtype with a kept id is also the first of the kept ones with it. */
  lemma FirstIsKeptFirst(env: Env, ts: seq<Subtype>, i: nat)
    requires i < |ts| && FirstWithId(ts, ts[i].id, i) && !env.isInputType(ts[i].id)
    ensures var j := |Kept(env, ts[..i])|;
      FirstWithId(Kept(env, ts), ts[i].id, j) && Kept(env, ts)[j] == ts[i]
  {
    KeptSplit(env, ts, i + 1);
    assert ts[..i + 1][..i] == ts[..i];
    forall m | 0 <= m < |Kept(env, ts[..i])|
      ensures Kept(env, ts)[m].id != ts[i].id
    {
      var n := KeptAreMembers(env, ts[..i], m);
      KeptSplit(env, ts, i);
    }
  }

  lemma {:induction false} FirstExists(ts: seq<Subtype>, i: nat) returns (f: nat)
    requires i < |ts|
    ensures f <= i && FirstWithId(ts, ts[i].id, f)
  {
    if forall j :: 0 <= j < i ==> ts[j].id != ts[i].id {
      f := i;
    } else {
      var j :| 0 <= j < i && ts[j].id == ts[i].id;
      f := FirstExists(ts, j);
    }
  }

  // -------------------------------------------------------------------- the code

  method CollectLabelIds(env: Env, subtypes: seq<Subtype>) returns (labelIdList: seq<nat>)
    ensures labelIdList == LabelIds(env, subtypes)
  {
    labelIdList := [];
    for i := 0 to |subtypes|
      invariant labelIdList == LabelIds(env, subtypes[..i])
    {
      var t := subtypes[i];
      assert subtypes[..i + 1][..i] == subtypes[..i];
      if env.isInputType(t.id) {
        continue;
      }
      var pos := Find(t.labelText, ':');
      if pos + 1 >= |t.labelText| {
        continue;
      }
      var labelId := env.atoi(t.labelText[pos + 1..]);
      if labelId > 0 {
        labelIdList := labelIdList + [labelId];
      }
    }
    assert subtypes[..|subtypes|] == subtypes;
  }

  /** Consumes the next label of the batch if the subtype's label names a resource. */
  method FillSubProperty(env: Env, t: Subtype, labelList: seq<string>, labelIdx: nat) returns (p: SubProperty, nextIdx: nat)
    ensures var n := ResourceId(env, t.labelText);
      && (n > 0 && labelIdx < |labelList| ==> nextIdx == labelIdx + 1 && p == Resolved(env, t).(labelText := labelList[labelIdx]))
      && (n > 0 && labelIdx >= |labelList| ==> nextIdx == labelIdx && p == Resolved(env, t).(labelText := t.labelText))
      && (n == 0 ==> nextIdx == labelIdx && p == Resolved(env, t))
  {
    p := SubProperty(t.labelText, 0, env.bundleName, t.id, t.mode, t.locale, Language(t.locale), t.icon, ResourceId(env, t.icon));
    nextIdx := labelIdx;
    var pos := Find(t.labelText, ':');
    if pos + 1 >= |t.labelText| {
      return;
    }
    var labelId := env.atoi(t.labelText[pos + 1..]);
    if labelId <= 0 {
      return;
    }
    p := p.(labelId := labelId);
    if labelIdx < |labelList| {
      p := p.(labelText := labelList[labelIdx]);
      nextIdx := labelIdx + 1;
    }
  }

  /** `batchOk`: the string service answered.  It is not asked when no label names a resource. */
  method ListInputMethodSubtype(env: Env, subtypes: seq<Subtype>, batchOk: bool) returns (r: Option<seq<SubProperty>>)
    ensures r.None? <==> !batchOk && LabelIds(env, subtypes) != []
    ensures r.Some? ==> r.value == ResolveAll(env, Kept(env, subtypes))
  {
    var ids := CollectLabelIds(env, subtypes);
    var labels := [];
    if ids != [] {
      if !batchOk {
        return None;
      }
      labels := GetStringByIdList(env, ids);
    }
    var props: seq<SubProperty> := [];
    var labelIdx := 0;
    for i := 0 to |subtypes|
      invariant labelIdx == |LabelIds(env, subtypes[..i])|
      invariant props == ResolveAll(env, Kept(env, subtypes[..i]))
    {
      var t := subtypes[i];
      NextLabel(env, subtypes, i);
      NextKept(env, subtypes, i);
      if env.isInputType(t.id) {
        continue;
      }
      var p, next := FillSubProperty(env, t, labels, labelIdx);
      props := props + [p];
      labelIdx := next;
    }
    assert subtypes[..|subtypes|] == subtypes;
    return Some(props);
  }

  /** The subtype with the name, or the first one when there is none; none for an empty profile. */
  method GetSubProperty(env: Env, subtypes: seq<Subtype>, subName: string) returns (r: Option<SubProperty>)
    ensures r.None? <==> subtypes == []
    ensures forall i: nat :: FirstWithId(subtypes, subName, i) ==> r == Some(Resolved(env, subtypes[i]))
    ensures subtypes != [] && (forall i :: 0 <= i < |subtypes| ==> subtypes[i].id != subName) ==>
      r == Some(Resolved(env, subtypes[0]))
  {
    if subtypes == [] {
      return None;
    }
    var i := 0;
    while i < |subtypes| && subtypes[i].id != subName
      invariant 0 <= i <= |subtypes| && forall j :: 0 <= j < i ==> subtypes[j].id != subName
    {
      i := i + 1;
    }
    var p := ResolveOne(env, subtypes[if i < |subtypes| then i else 0]);
    return Some(p);
  }

  method ResolveOne(env: Env, t: Subtype) returns (p: SubProperty)
    ensures p == Resolved(env, t)
  {
    p := SubProperty(t.labelText, 0, env.bundleName, t.id, t.mode, t.locale, Language(t.locale), t.icon, 0);
    var pos := Find(t.labelText, ':');
    if pos + 1 < |t.labelText| {
      var labelId := env.atoi(t.labelText[pos + 1..]);
      if labelId > 0 {
        p := p.(labelId := labelId, labelText := env.getString(labelId));
      }
    }
    pos := Find(t.icon, ':');
    if pos + 1 < |t.icon| {
      var iconId := env.atoi(t.icon[pos + 1..]);
      if iconId > 0 {
        p := p.(iconId := iconId);
      }
    }
  }

  predicate FirstRecord(batch: seq<SubProperty>, id: string, j: nat) {
    j < |batch| && batch[j].id == id && forall m :: 0 <= m < j ==> batch[m].id != id
  }

  /** For a record of the batched list the single lookup returns the first record with its id.  The
      two agree on it exactly if that first record is the same, so always when ids are distinct. */
  method BatchAgreesWithSingle(env: Env, subtypes: seq<Subtype>, k: nat) returns (batch: seq<SubProperty>, one: SubProperty)
    requires k < |Kept(env, subtypes)|
    ensures batch == ResolveAll(env, Kept(env, subtypes))
    ensures forall j: nat :: FirstRecord(batch, batch[k].id, j) ==> one == batch[j]
    ensures one == batch[k] <==> exists j: nat :: FirstRecord(batch, batch[k].id, j) && batch[j] == batch[k]
    ensures DistinctIds(subtypes) ==> one == batch[k]
  {
    var b := ListInputMethodSubtype(env, subtypes, true);
    batch := b.value;
    var s := GetSubProperty(env, subtypes, batch[k].id);
    one := s.value;
    ghost var i := KeptAreMembers(env, subtypes, k);
    ghost var f := FirstExists(subtypes, i);
    FirstIsKeptFirst(env, subtypes, f);
    ghost var first := |Kept(env, subtypes[..f])|;
    assert FirstRecord(batch, batch[k].id, first) && batch[first] == Resolved(env, subtypes[f]);
    assert one == batch[first];
    assert forall j: nat :: FirstRecord(batch, batch[k].id, j) ==> j == first;
    assert DistinctIds(subtypes) ==> i == f;
  }

  /** Two subtypes with one id: the single lookup does not know the second unless they resolve alike. */
  method SharedIdDisagrees(env: Env, a: Subtype, b: Subtype) returns (batch: seq<SubProperty>, one: SubProperty)
    requires a.id == b.id && !env.isInputType(a.id)
    ensures batch == [Resolved(env, a), Resolved(env, b)] && batch[1].id == b.id
    ensures one == batch[1] <==> Resolved(env, a) == Resolved(env, b)
  {
    assert [a, b][..1] == [a] && [a][..0] == [];
    assert Kept(env, [a]) == [a] && Kept(env, [a, b]) == [a, b];
    batch, one := BatchAgreesWithSingle(env, [a, b], 1);
    assert FirstRecord(batch, batch[1].id, 0);
  }
}
