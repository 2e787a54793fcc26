/** What the emitted permissions module is made of, stated against an
    independent, structured description of it: the list of non-empty rule
    groups in their fixed order, each rendered on its own. */
module ShieldProperties {
  import opened Strings
  import opened Shield

  // ----- Structured reference ---------------------------------------------------

  /** A rule group: a kind of operation and the names of its operations. */
  datatype Group = Group(kind: Kind, names: seq<string>)

  /** The emission order of the kinds. */
  function Rank(k: Kind): nat {
    match k
    case Query => 0
    case Mutation => 1
    case Subscription => 2
  }

  function NamesOf(k: Kind, queries: seq<string>, mutations: seq<string>, subscriptions: seq<string>): seq<string> {
    match k
    case Query => queries
    case Mutation => mutations
    case Subscription => subscriptions
  }

  /** The kinds of `kinds` that have operations, each with its names. */
  function NonEmptyGroups(kinds: seq<Kind>, queries: seq<string>, mutations: seq<string>, subscriptions: seq<string>): seq<Group> {
    if kinds == [] then []
    else
      var names := NamesOf(kinds[0], queries, mutations, subscriptions);
      (if |names| > 0 then [Group(kinds[0], names)] else [])
      + NonEmptyGroups(kinds[1..], queries, mutations, subscriptions)
  }

  /** The groups the module is built from, in emission order. */
  function Groups(queries: seq<string>, mutations: seq<string>, subscriptions: seq<string>): seq<Group> {
    NonEmptyGroups([Query, Mutation, Subscription], queries, mutations, subscriptions)
  }

  predicate HasGroup(gs: seq<Group>, k: Kind) {
    exists i :: 0 <= i < |gs| && gs[i].kind == k
  }

  function GroupItems(gs: seq<Group>): seq<string> {
    seq(|gs|, i requires 0 <= i < |gs| => GroupItem(gs[i].kind, gs[i].names))
  }

  function UnionLines(gs: seq<Group>): seq<string> {
    seq(|gs|, i requires 0 <= i < |gs| => UnionLine(gs[i].kind, gs[i].names))
  }

  /** The root object's items rendered from the groups: concatenated as they are. */
  function RenderItems(gs: seq<Group>): string {
    Join(GroupItems(gs), "")
  }

  /** The union declarations rendered from the groups, one after the other. */
  function RenderUnions(gs: seq<Group>): string {
    Join(UnionLines(gs), "")
  }

  lemma GroupsUnfold(queries: seq<string>, mutations: seq<string>, subscriptions: seq<string>)
    ensures Groups(queries, mutations, subscriptions)
         == (if |queries| > 0 then [Group(Query, queries)] else [])
          + (if |mutations| > 0 then [Group(Mutation, mutations)] else [])
          + (if |subscriptions| > 0 then [Group(Subscription, subscriptions)] else [])
  {
    var ks := [Query, Mutation, Subscription];
    assert ks[1..] == [Mutation, Subscription];
    assert ks[1..][1..] == [Subscription];
    assert ks[1..][1..][1..] == [];
    var gq := if |queries| > 0 then [Group(Query, queries)] else [];
    var gm := if |mutations| > 0 then [Group(Mutation, mutations)] else [];
    var gsub := if |subscriptions| > 0 then [Group(Subscription, subscriptions)] else [];
    assert NonEmptyGroups([], queries, mutations, subscriptions) == [];
    assert NonEmptyGroups([Subscription], queries, mutations, subscriptions) == gsub + [];
    assert NonEmptyGroups([Mutation, Subscription], queries, mutations, subscriptions) == gm + gsub;
    assert NonEmptyGroups(ks, queries, mutations, subscriptions) == gq + (gm + gsub);
  }

  /** There is a group for exactly the kinds that have operations; each group
      holds its kind's names unchanged, and the groups follow the order query,
      mutation, subscription. */
  lemma GroupsFaithful(queries: seq<string>, mutations: seq<string>, subscriptions: seq<string>)
    ensures var gs := Groups(queries, mutations, subscriptions);
      && (forall k :: HasGroup(gs, k) <==> |NamesOf(k, queries, mutations, subscriptions)| > 0)
      && (forall i :: 0 <= i < |gs| ==> gs[i].names == NamesOf(gs[i].kind, queries, mutations, subscriptions))
      && (forall i, j :: 0 <= i < j < |gs| ==> Rank(gs[i].kind) < Rank(gs[j].kind))
  {
    GroupsUnfold(queries, mutations, subscriptions);
    var gs := Groups(queries, mutations, subscriptions);
    forall k ensures HasGroup(gs, k) <==> |NamesOf(k, queries, mutations, subscriptions)| > 0 {
      if |NamesOf(k, queries, mutations, subscriptions)| > 0 {
        var i := match k
          case Query => 0
          case Mutation => if |queries| > 0 then 1 else 0
          case Subscription => (if |queries| > 0 then 1 else 0) + (if |mutations| > 0 then 1 else 0);
        assert gs[i].kind == k;
      }
    }
  }

  /** There are no groups exactly when there are no operations. */
  lemma GroupsEmpty(queries: seq<string>, mutations: seq<string>, subscriptions: seq<string>)
    ensures Groups(queries, mutations, subscriptions) == [] <==> |queries| == 0 && |mutations| == 0 && |subscriptions| == 0
  {
    GroupsUnfold(queries, mutations, subscriptions);
  }

  /** `constructShield`'s branch-by-branch accumulation of `rootItems` renders
      exactly the non-empty groups, in order, with nothing between them. */
  lemma {:induction false} RootItemsMatchGroups(queries: seq<string>, mutations: seq<string>, subscriptions: seq<string>)
    ensures RootItems(queries, mutations, subscriptions) == RenderItems(Groups(queries, mutations, subscriptions))
  {
    GroupsUnfold(queries, mutations, subscriptions);
    var gq := if |queries| > 0 then [Group(Query, queries)] else [];
    var gm := if |mutations| > 0 then [Group(Mutation, mutations)] else [];
    var gsub := if |subscriptions| > 0 then [Group(Subscription, subscriptions)] else [];
    RenderConcat(gq + gm, gsub);
    RenderConcat(gq, gm);
    JoinConcat(GroupItems(gq) + GroupItems(gm), GroupItems(gsub));
    JoinConcat(GroupItems(gq), GroupItems(gm));
  }

  /** The same for `rootTypes`: the union declarations of the non-empty
      groups, in the same order, with nothing between them. */
  lemma {:induction false} RootTypesMatchGroups(queries: seq<string>, mutations: seq<string>, subscriptions: seq<string>)
    ensures RootTypes(queries, mutations, subscriptions) == RenderUnions(Groups(queries, mutations, subscriptions))
  {
    GroupsUnfold(queries, mutations, subscriptions);
    var gq := if |queries| > 0 then [Group(Query, queries)] else [];
    var gm := if |mutations| > 0 then [Group(Mutation, mutations)] else [];
    var gsub := if |subscriptions| > 0 then [Group(Subscription, subscriptions)] else [];
    RenderConcat(gq + gm, gsub);
    RenderConcat(gq, gm);
    JoinConcat(UnionLines(gq) + UnionLines(gm), UnionLines(gsub));
    JoinConcat(UnionLines(gq), UnionLines(gm));
  }

  lemma RenderConcat(a: seq<Group>, b: seq<Group>)
    ensures GroupItems(a + b) == GroupItems(a) + GroupItems(b)
    ensures UnionLines(a + b) == UnionLines(a) + UnionLines(b)
  {
  }

  /** Joining with no separator distributes over concatenation. */
  lemma {:induction false} JoinConcat(a: seq<string>, b: seq<string>)
    ensures Join(a + b, "") == Join(a, "") + Join(b, "")
  {
    if a == [] {
      assert a + b == b;
    } else if b == [] {
      assert a + b == a;
    } else if |a| == 1 {
      JoinCons(a + b, "");
      assert (a + b)[1..] == b;
    } else {
      JoinCons(a, "");
      JoinCons(a + b, "");
      assert (a + b)[1..] == a[1..] + b;
      JoinConcat(a[1..], b);
    }
  }

  /** The second emptiness check of `constructShield` (on `rootItems`) can never
      succeed once the first one has failed. */
  lemma SecondGuardNeverFires(queries: seq<string>, mutations: seq<string>, subscriptions: seq<string>)
    requires |queries| > 0 || |mutations| > 0 || |subscriptions| > 0
    ensures |RootItems(queries, mutations, subscriptions)| > 0
  {
    var items := RootItems(queries, mutations, subscriptions);
    assert |GroupItem(Query, queries)| > 0 && |GroupItem(Mutation, mutations)| > 0;
  }

  // ----- Layout of the emitted module ---------------------------------------------

  /** Where the root items begin in a module whose permissions statement
      follows `h`. */
  function ItemsStart(h: string): nat {
    |h| + |ExportOpen| + |ShieldCallOpen| + |ObjectOpen|
  }

  /** A non-empty module is: the trpc-shield imports, the context import of
      the given path, a blank line, the exported permissions built around the
      rendered groups, and the closing template holding the rendered unions
      and one field slot per kind. */
  lemma ConstructShieldLayout(queries: seq<string>, mutations: seq<string>, subscriptions: seq<string>, contextPath: string)
    requires |queries| > 0 || |mutations| > 0 || |subscriptions| > 0
    ensures var r := ConstructShield(queries, mutations, subscriptions, contextPath);
      var gs := Groups(queries, mutations, subscriptions);
      r == Header(contextPath) + Permissions(RenderItems(gs))
             + Trailer(RenderUnions(gs),
                       FieldSlot(Query, queries), FieldSlot(Mutation, mutations), FieldSlot(Subscription, subscriptions))
  {
    SecondGuardNeverFires(queries, mutations, subscriptions);
    RootItemsMatchGroups(queries, mutations, subscriptions);
    RootTypesMatchGroups(queries, mutations, subscriptions);
  }

  /** The header is the trpc-shield imports, the import of `Context` from the
      given path, which can be read back from it, and a blank line. */
  lemma HeaderShape(contextPath: string)
    ensures Header(contextPath) == TrpcShieldImport + (ContextImportHead + contextPath + ContextImportTail) + "\n\n"
    ensures ImportedPath(ContextImportHead + contextPath + ContextImportTail) == Some(contextPath)
  {
    GetImportsPath("context", Some(contextPath), None);
  }

  /** Whatever occurs in the root items occurs in a module built around them. */
  lemma InModule(h: string, rootItems: string, t: string, x: string, k: nat)
    requires OccursAt(x, rootItems, k)
    ensures OccursAt(x, h + Permissions(rootItems) + t, ItemsStart(h) + k)
  {
    InPermissions(rootItems, x, k);
    OccursNested(x, h, Permissions(rootItems), t, |ExportOpen| + |ShieldCallOpen| + |ObjectOpen| + k);
  }

  /** The permissions statement of the module decodes back to the rendered
      groups: each of the three wrappers embeds its argument verbatim. */
  lemma PermissionsDecode(rootItems: string)
    ensures var perm := Permissions(rootItems);
      && UnwrapExport(perm).Some?
      && UnwrapShieldCall(UnwrapExport(perm).value).Some?
      && UnwrapObject(UnwrapShieldCall(UnwrapExport(perm).value).value) == Some(rootItems)
  {
    var o := WrapWithObject(Text(rootItems));
    WrapWithObjectRoundTrip(Text(rootItems));
    WrapWithTrpcShieldCallRoundTrip(o);
    WrapWithExportRoundTrip(WrapWithTrpcShieldCall(o));
  }

  /** Whatever occurs in the root items occurs in the permissions statement,
      shifted by the three openings. */
  lemma InPermissions(rootItems: string, t: string, k: nat)
    requires OccursAt(t, rootItems, k)
    ensures OccursAt(t, Permissions(rootItems), |ExportOpen| + |ShieldCallOpen| + |ObjectOpen| + k)
  {
    var o := WrapWithObject(Text(rootItems));
    OccursNested(t, ObjectOpen, rootItems, ObjectClose, k);
    var c := WrapWithTrpcShieldCall(o);
    OccursNested(t, ShieldCallOpen, o, ShieldCallClose, |ObjectOpen| + k);
    OccursNested(t, ExportOpen, c, ExportClose, |ShieldCallOpen| + |ObjectOpen| + k);
  }

  /** The positions of the parts of `a + x + b + c + d + e` that follow `a`,
      with every concatenation nested to the left as written. */
  lemma Tail5(t: string, a: string, b: string, c: string, d: string, e: string)
    ensures OccursAt(t, a + t + b + c + d + e, |a|)
  {
    AtEnd(a, t);
    OccursExtend(t, a + t, b, |a|);
    OccursExtend(t, a + t + b, c, |a|);
    OccursExtend(t, a + t + b + c, d, |a|);
    OccursExtend(t, a + t + b + c + d, e, |a|);
  }

  /** Positions in a concatenation of nine parts, the fourth and the sixth
      separated by the same `brk`. */
  lemma SlotLayout(h: string, x: string, o: string, q: string, brk: string, m: string, s: string, c: string)
    ensures var t := h + x + o + q + brk + m + brk + s + c;
      var fq := |h| + |x| + |o|;
      var fm := fq + |q| + |brk|;
      var fs := fm + |m| + |brk|;
      && OccursAt(x, t, |h|)
      && OccursAt(q, t, fq)
      && OccursAt(m, t, fm)
      && OccursAt(s, t, fs)
      && OccursAt(c, t, fs + |s|)
      && |t| == fs + |s| + |c|
  {
    Tail5(x, h, o, q, brk, m);
    OccursExtend(x, h + x + o + q + brk + m, brk, |h|);
    OccursExtend(x, h + x + o + q + brk + m + brk, s, |h|);
    OccursExtend(x, h + x + o + q + brk + m + brk + s, c, |h|);
    Tail5(q, h + x + o, brk, m, brk, s);
    OccursExtend(q, h + x + o + q + brk + m + brk + s, c, |h + x + o|);
    Tail5(m, h + x + o + q + brk, brk, s, c, "");
    assert h + x + o + q + brk + m + brk + s + c + "" == h + x + o + q + brk + m + brk + s + c;
    AtEnd(h + x + o + q + brk + m + brk, s);
    OccursExtend(s, h + x + o + q + brk + m + brk + s, c, |h + x + o + q + brk + m + brk|);
    AtEnd(h + x + o + q + brk + m + brk + s, c);
  }

  /** Where the parts of the closing template sit in it. */
  lemma TrailerParts(rootTypes: string, queryField: string, mutationField: string, subscriptionField: string)
    ensures var t := Trailer(rootTypes, queryField, mutationField, subscriptionField);
      var fq := |TrailerHead| + |rootTypes| + |RuleTreeOpen|;
      var fm := fq + |queryField| + |FieldBreak|;
      var fs := fm + |mutationField| + |FieldBreak|;
      && OccursAt(rootTypes, t, |TrailerHead|)
      && OccursAt(queryField, t, fq)
      && OccursAt(mutationField, t, fm)
      && OccursAt(subscriptionField, t, fs)
      && OccursAt(RuleTreeClose, t, fs + |subscriptionField|)
      && |t| == fs + |subscriptionField| + |RuleTreeClose|
  {
    SlotLayout(TrailerHead, rootTypes, RuleTreeOpen, queryField, FieldBreak, mutationField, subscriptionField, RuleTreeClose);
  }

  /** Each group sits in the rendered groups at its offset among them. */
  lemma GroupInItems(gs: seq<Group>, i: nat)
    requires i < |gs|
    ensures OccursAt(GroupItems(gs)[i], RenderItems(gs), Offset(GroupItems(gs), "", i))
  {
    JoinAt(GroupItems(gs), "", i);
  }

  /** Each group sits in a module built around the rendered groups, shifted
      by what precedes the root items. */
  lemma GroupInModule(h: string, gs: seq<Group>, t: string, i: nat, x: string, k: nat)
    requires i < |gs| && x == GroupItems(gs)[i] && k == Offset(GroupItems(gs), "", i)
    ensures OccursAt(x, h + Permissions(RenderItems(gs)) + t, ItemsStart(h) + k)
  {
    GroupInItems(gs, i);
    InModule(h, RenderItems(gs), t, x, k);
  }

  /** Inside a group's object literal, the entry `<name>: allow` of the j-th
      name sits at its offset among the entries: the group lists every name,
      unescaped, in input order (the separators are `ObjectSeparatorAt`). */
  lemma EntryInObject(names: seq<string>, entries: seq<string>, j: nat)
    requires entries == AllowEntries(names) && j < |names|
    ensures OccursAt(names[j] + ": allow", WrapWithObject(Lines(entries)), |ObjectOpen| + Offset(entries, ItemSeparator, j))
  {
    ObjectLineAt(entries, j);
    OccursEqual(entries[j], WrapWithObject(Lines(entries)), |ObjectOpen| + Offset(entries, ItemSeparator, j),
                names[j] + ": allow", WrapWithObject(Lines(entries)), |ObjectOpen| + Offset(entries, ItemSeparator, j));
  }

  /** The offset of the j-th member inside a union declaration. */
  function MemberStart(k: Kind, names: seq<string>, j: nat): nat
    requires j < |names|
  {
    |"export type " + KeysTypeName(k) + " = "| + Offset(QuotedNames(names), " | ", j)
  }

  /** The quoted names of a union declaration at their offsets inside it. */
  lemma MembersInUnion(k: Kind, names: seq<string>, j: nat)
    requires j < |names|
    ensures OccursAt(QuotedNames(names)[j], UnionLine(k, names), MemberStart(k, names, j))
  {
    JoinAtFramed(QuotedNames(names), " | ", "export type " + KeysTypeName(k) + " = ", ";\n", j);
  }

  /** Inside a union declaration, the j-th member is the j-th name in single
      quotes, unescaped: the declaration lists every name in input order. */
  lemma MemberInUnion(k: Kind, names: seq<string>, j: nat)
    requires j < |names|
    ensures OccursAt("'" + names[j] + "'", UnionLine(k, names), MemberStart(k, names, j))
  {
    MembersInUnion(k, names, j);
    OccursEqual(QuotedNames(names)[j], UnionLine(k, names), MemberStart(k, names, j),
      "'" + names[j] + "'", UnionLine(k, names), MemberStart(k, names, j));
  }

  /** The separators of a union declaration's members at their offsets. */
  lemma SeparatorsInUnion(k: Kind, names: seq<string>, j: nat)
    requires j + 1 < |names|
    ensures OccursAt(" | ", UnionLine(k, names),
                     |"export type " + KeysTypeName(k) + " = "| + (Offset(QuotedNames(names), " | ", j) + |QuotedNames(names)[j]|))
  {
    JoinSepFramed(QuotedNames(names), " | ", "export type " + KeysTypeName(k) + " = ", ";\n", j);
  }

  /** Every member but the last is followed by ` | `, and the next member
      follows the separator. */
  lemma SeparatorAfterMember(k: Kind, names: seq<string>, j: nat)
    requires j + 1 < |names|
    ensures OccursAt(" | ", UnionLine(k, names), MemberStart(k, names, j) + |"'" + names[j] + "'"|)
    ensures MemberStart(k, names, j + 1) == MemberStart(k, names, j) + |"'" + names[j] + "'"| + |" | "|
  {
    var quoted := QuotedNames(names);
    SeparatorsInUnion(k, names, j);
    OccursEqual(" | ", UnionLine(k, names),
                |"export type " + KeysTypeName(k) + " = "| + (Offset(quoted, " | ", j) + |quoted[j]|),
                " | ", UnionLine(k, names), MemberStart(k, names, j) + |"'" + names[j] + "'"|);
  }

  /** Each union declaration sits in the rendered declarations at its offset
      among them. */
  lemma UnionInTypes(gs: seq<Group>, i: nat)
    requires i < |gs|
    ensures OccursAt(UnionLines(gs)[i], RenderUnions(gs), Offset(UnionLines(gs), "", i))
  {
    JoinAt(UnionLines(gs), "", i);
  }

  // ----- RuleTree fields ---------------------------------------------------------

  /** A non-empty module is the header, the permissions statement around
      `rootItems` and the closing template, as `constructShield` returns them. */
  lemma ModuleParts(queries: seq<string>, mutations: seq<string>, subscriptions: seq<string>, contextPath: string)
    requires |queries| > 0 || |mutations| > 0 || |subscriptions| > 0
    ensures ConstructShield(queries, mutations, subscriptions, contextPath)
         == Header(contextPath) + Permissions(RootItems(queries, mutations, subscriptions))
          + Trailer(RootTypes(queries, mutations, subscriptions),
                    FieldSlot(Query, queries), FieldSlot(Mutation, mutations), FieldSlot(Subscription, subscriptions))
  {
    SecondGuardNeverFires(queries, mutations, subscriptions);
  }

  /** The slot of kind `k` among the three interpolated field slots. */
  function SlotOf(k: Kind, queryField: string, mutationField: string, subscriptionField: string): string {
    match k
    case Query => queryField
    case Mutation => mutationField
    case Subscription => subscriptionField
  }

  /** Where the slot of kind `k` begins in the closing template whose fixed
      head is `head`: after the union declarations, the opening of `RuleTree`
      and the earlier slots, each followed by a line break. */
  function SlotStart(k: Kind, head: string, rootTypes: string, queryField: string, mutationField: string): nat {
    var fq := |head| + |rootTypes| + |RuleTreeOpen|;
    match k
    case Query => fq
    case Mutation => fq + |queryField| + |FieldBreak|
    case Subscription => fq + |queryField| + |FieldBreak| + |mutationField| + |FieldBreak|
  }

  /** What the template puts right after the slot of kind `k`. */
  function AfterSlot(k: Kind): string {
    match k
    case Query => FieldBreak
    case Mutation => FieldBreak
    case Subscription => RuleTreeClose
  }

  /** The first slot `q` of `x + y + o + q + brk + m + brk + s + c` and the
      line break after it. */
  lemma QuerySlotAt(x: string, y: string, o: string, q: string, brk: string, m: string, s: string, c: string)
    ensures OccursAt(q, x + y + o + q + brk + m + brk + s + c, |x| + |y| + |o|)
    ensures OccursAt(brk, x + y + o + q + brk + m + brk + s + c, |x| + |y| + |o| + |q|)
  {
    var h := x + y + o;
    Tail5(q, h, brk, m, brk, s);
    OccursExtend(q, h + q + brk + m + brk + s, c, |h|);
    Tail5(brk, h + q, m, brk, s, c);
  }

  /** The second slot `m` and the line break after it. */
  lemma MutationSlotAt(x: string, y: string, o: string, q: string, brk: string, m: string, s: string, c: string)
    ensures OccursAt(m, x + y + o + q + brk + m + brk + s + c, |x| + |y| + |o| + |q| + |brk|)
    ensures OccursAt(brk, x + y + o + q + brk + m + brk + s + c, |x| + |y| + |o| + |q| + |brk| + |m|)
  {
    var a := x + y + o + q + brk;
    AtEnd(a, m);
    OccursExtend(m, a + m, brk, |a|);
    OccursExtend(m, a + m + brk, s, |a|);
    OccursExtend(m, a + m + brk + s, c, |a|);
    AtEnd(a + m, brk);
    OccursExtend(brk, a + m + brk, s, |a + m|);
    OccursExtend(brk, a + m + brk + s, c, |a + m|);
  }

  /** The third slot `s` and the closing text `c` after it. */
  lemma SubscriptionSlotAt(x: string, y: string, o: string, q: string, brk: string, m: string, s: string, c: string)
    ensures OccursAt(s, x + y + o + q + brk + m + brk + s + c, |x| + |y| + |o| + |q| + |brk| + |m| + |brk|)
    ensures OccursAt(c, x + y + o + q + brk + m + brk + s + c, |x| + |y| + |o| + |q| + |brk| + |m| + |brk| + |s|)
  {
    var a := x + y + o + q + brk + m + brk;
    AtEnd(a, s);
    OccursExtend(s, a + s, c, |a|);
    AtEnd(a + s, c);
  }

  /** Each slot sits in the template at its start. */
  lemma SlotInTemplate(k: Kind, head: string, rootTypes: string,
                       queryField: string, mutationField: string, subscriptionField: string)
    ensures OccursAt(SlotOf(k, queryField, mutationField, subscriptionField),
                     head + rootTypes + RuleTreeOpen + queryField + FieldBreak + mutationField + FieldBreak
                     + subscriptionField + RuleTreeClose,
                     SlotStart(k, head, rootTypes, queryField, mutationField))
  {
    match k
    case Query =>
      QuerySlotAt(head, rootTypes, RuleTreeOpen, queryField, FieldBreak, mutationField, subscriptionField, RuleTreeClose);
    case Mutation =>
      MutationSlotAt(head, rootTypes, RuleTreeOpen, queryField, FieldBreak, mutationField, subscriptionField, RuleTreeClose);
    case Subscription =>
      SubscriptionSlotAt(head, rootTypes, RuleTreeOpen, queryField, FieldBreak, mutationField, subscriptionField, RuleTreeClose);
  }

  /** Each slot is followed by a line break, or by the closing `};` for the
      last one. */
  lemma AfterSlotInTemplate(k: Kind, head: string, rootTypes: string,
                            queryField: string, mutationField: string, subscriptionField: string)
    ensures OccursAt(AfterSlot(k),
                     head + rootTypes + RuleTreeOpen + queryField + FieldBreak + mutationField + FieldBreak
                     + subscriptionField + RuleTreeClose,
                     SlotStart(k, head, rootTypes, queryField, mutationField)
                     + |SlotOf(k, queryField, mutationField, subscriptionField)|)
  {
    match k
    case Query =>
      QuerySlotAt(head, rootTypes, RuleTreeOpen, queryField, FieldBreak, mutationField, subscriptionField, RuleTreeClose);
    case Mutation =>
      MutationSlotAt(head, rootTypes, RuleTreeOpen, queryField, FieldBreak, mutationField, subscriptionField, RuleTreeClose);
    case Subscription =>
      SubscriptionSlotAt(head, rootTypes, RuleTreeOpen, queryField, FieldBreak, mutationField, subscriptionField, RuleTreeClose);
  }

  /** A field begins with its kind's key, never with the line break or the
      closing `};` that follows a slot. */
  lemma FieldNotAfterSlot(k: Kind)
    ensures |FieldLine(k)| > 0 && |AfterSlot(k)| > 0 && FieldLine(k)[0] != AfterSlot(k)[0]
  {
    assert FieldLine(k)[0] == KindKey(k)[0];
  }

  /** Where the `RuleTree` field of kind `k` belongs in the module. */
  function FieldPos(k: Kind, queries: seq<string>, mutations: seq<string>, subscriptions: seq<string>, contextPath: string): nat {
    |Header(contextPath)| + |Permissions(RootItems(queries, mutations, subscriptions))|
    + SlotStart(k, TrailerHead, RootTypes(queries, mutations, subscriptions),
                FieldSlot(Query, queries), FieldSlot(Mutation, mutations))
  }

  /** `r` is `pre` followed by the closing template with the fixed head
      `head`, and `pos` is where the slot of kind `k` begins in `r`. */
  predicate TemplateAt(k: Kind, r: string, pos: nat, pre: string, head: string, rootTypes: string,
                       queryField: string, mutationField: string, subscriptionField: string)
  {
    && r == pre + (head + rootTypes + RuleTreeOpen + queryField + FieldBreak + mutationField + FieldBreak
                   + subscriptionField + RuleTreeClose)
    && pos == |pre| + SlotStart(k, head, rootTypes, queryField, mutationField)
  }

  /** A non-empty module is laid out as `TemplateAt` says, with the field of
      kind `k` belonging at `FieldPos`. */
  lemma ModuleTemplate(k: Kind, queries: seq<string>, mutations: seq<string>, subscriptions: seq<string>, contextPath: string)
      returns (pre: string, head: string)
    requires |queries| > 0 || |mutations| > 0 || |subscriptions| > 0
    ensures TemplateAt(k, ConstructShield(queries, mutations, subscriptions, contextPath),
                       FieldPos(k, queries, mutations, subscriptions, contextPath), pre, head,
                       RootTypes(queries, mutations, subscriptions),
                       FieldSlot(Query, queries), FieldSlot(Mutation, mutations), FieldSlot(Subscription, subscriptions))
  {
    pre, head := Header(contextPath) + Permissions(RootItems(queries, mutations, subscriptions)), TrailerHead;
    ModuleParts(queries, mutations, subscriptions, contextPath);
  }

  /** The slot of a kind holds its field when the kind has operations and
      nothing otherwise. */
  lemma SlotOfKind(k: Kind, queries: seq<string>, mutations: seq<string>, subscriptions: seq<string>)
    ensures var slot := SlotOf(k, FieldSlot(Query, queries), FieldSlot(Mutation, mutations), FieldSlot(Subscription, subscriptions));
      && (slot == FieldLine(k) <==> |NamesOf(k, queries, mutations, subscriptions)| > 0)
      && (slot == "" || slot == FieldLine(k))
  {
    assert |FieldLine(k)| > 0;
  }

  /** In a non-empty module, the `RuleTree` field of a kind is at its place
      exactly when the kind has operations; otherwise a line break (or the
      closing `};`) stands there. */
  lemma FieldInModule(k: Kind, queries: seq<string>, mutations: seq<string>, subscriptions: seq<string>, contextPath: string)
    requires |queries| > 0 || |mutations| > 0 || |subscriptions| > 0
    ensures OccursAt(FieldLine(k), ConstructShield(queries, mutations, subscriptions, contextPath),
                     FieldPos(k, queries, mutations, subscriptions, contextPath))
            <==> |NamesOf(k, queries, mutations, subscriptions)| > 0
  {
    var pre, head := ModuleTemplate(k, queries, mutations, subscriptions, contextPath);
    SlotOfKind(k, queries, mutations, subscriptions);
    FieldInText(k, ConstructShield(queries, mutations, subscriptions, contextPath),
                FieldPos(k, queries, mutations, subscriptions, contextPath), pre, head,
                RootTypes(queries, mutations, subscriptions),
                FieldSlot(Query, queries), FieldSlot(Mutation, mutations), FieldSlot(Subscription, subscriptions),
                |NamesOf(k, queries, mutations, subscriptions)| > 0);
  }

  /** In a text `r` made of any `pre` and the template with the fixed head
      `head`, the field of kind `k` is at its slot's place `pos` exactly when
      the slot holds it (`present`); an empty slot leaves a line break (or the
      closing `};`) there. */
  lemma FieldInText(k: Kind, r: string, pos: nat, pre: string, head: string, rootTypes: string,
                    queryField: string, mutationField: string, subscriptionField: string, present: bool)
    requires TemplateAt(k, r, pos, pre, head, rootTypes, queryField, mutationField, subscriptionField)
    requires var slot := SlotOf(k, queryField, mutationField, subscriptionField);
      (slot == FieldLine(k) <==> present) && (slot == "" || slot == FieldLine(k))
    ensures OccursAt(FieldLine(k), r, pos) <==> present
  {
    var t := head + rootTypes + RuleTreeOpen + queryField + FieldBreak + mutationField + FieldBreak
             + subscriptionField + RuleTreeClose;
    var at := SlotStart(k, head, rootTypes, queryField, mutationField);
    SlotInTemplate(k, head, rootTypes, queryField, mutationField, subscriptionField);
    AfterSlotInTemplate(k, head, rootTypes, queryField, mutationField, subscriptionField);
    FieldNotAfterSlot(k);
    SlotHolds(FieldLine(k), SlotOf(k, queryField, mutationField, subscriptionField), AfterSlot(k), pre, t, at, r, pos);
  }

  /** A kind's `RuleTree` field is keyed by the kind's group key and refers to
      the union type that the kind's union declaration declares. */
  lemma FieldRefersToUnion(k: Kind, names: seq<string>)
    ensures OccursAt(KindKey(k), FieldLine(k), 0)
    ensures OccursAt(KeysTypeName(k), FieldLine(k), |KindKey(k)| + |FieldRuleHead|)
    ensures OccursAt(KeysTypeName(k), UnionLine(k, names), |"export type "|)
  {
    var key, name := KindKey(k), KeysTypeName(k);
    AtStart(key, FieldRuleHead);
    OccursExtend(key, key + FieldRuleHead, name, 0);
    OccursExtend(key, key + FieldRuleHead + name, FieldRuleTail, 0);
    OccursInMiddle(key + FieldRuleHead, name, FieldRuleTail);
    var members := Join(QuotedNames(names), " | ");
    OccursInMiddle("export type ", name, " = ");
    OccursExtend(name, "export type " + name + " = ", members, |"export type "|);
    OccursExtend(name, "export type " + name + " = " + members, ";\n", |"export type "|);
  }
}
