/** The rule-tree emitter of the trpc-shield generator: from the ordered names
    of the queries, mutations and subscriptions of a schema it assembles the
    text of a permissions module that allows every operation, together with
    the `*Keys` union types and the `RuleTree` type describing it. */
module Shield {
  import opened Strings

  // ----- Import statements -------------------------------------------------

  const TrpcImport := "import * as trpc from '@trpc/server';\n"
  const TrpcShieldImport :=
    "import { shield as trpcShield, allow } from 'trpc-shield';\nimport { IOptions, IRuleFieldMap, IRules, ShieldRule } from 'trpc-shield/lib/types';\n"
  const ContextImportHead := "import { Context } from '"
  const ContextImportTail := "';\n"

  /** How the host's template interpolation prints the optional path argument:
      an omitted path is printed as `undefined`. */
  function PathText(newPath: Option<string>): string {
    match newPath
    case Some(p) => p
    case None => "undefined"
  }

  /** The module specifier of a context import line, if the line is one. */
  function ImportedPath(line: string): Option<string> {
    Strip(line, ContextImportHead, ContextImportTail)
  }

  /** One of the fixed import statements, selected by its tag; any tag other
      than the three known ones selects nothing. */
  function GetImports(tag: string, newPath: Option<string>): (r: string)
    ensures r == "" <==> tag !in {"trpc", "trpc-shield", "context"}
  {
    if tag == "trpc" then TrpcImport
    else if tag == "trpc-shield" then TrpcShieldImport
    else if tag == "context" then ContextImportHead + PathText(newPath) + ContextImportTail
    else ""
  }

  /** Only the context import depends on the path, and it carries the path
      verbatim: the path is recovered from the line. */
  lemma GetImportsPath(tag: string, newPath: Option<string>, otherPath: Option<string>)
    ensures tag == "context" ==> ImportedPath(GetImports(tag, newPath)) == Some(PathText(newPath))
    ensures tag != "context" ==> GetImports(tag, newPath) == GetImports(tag, otherPath)
  {
    StripConcat(ContextImportHead, PathText(newPath), ContextImportTail);
  }

  // ----- Wrappers ------------------------------------------------------------

  /** The argument of `wrapWithObject`: an array of lines or a single string. */
  datatype ShieldItemLines = Lines(items: seq<string>) | Text(text: string)

  const ObjectOpen := "{\n  "
  const ObjectClose := "\n}"
  /** Separator between the entries of an array argument. */
  const ItemSeparator := ",\r\n"

  /** What goes between the braces: the lines joined, or the string as is. */
  function ObjectBody(lines: ShieldItemLines): string {
    match lines
    case Lines(items) => Join(items, ItemSeparator)
    case Text(text) => text
  }

  function UnwrapObject(s: string): Option<string> {
    Strip(s, ObjectOpen, ObjectClose)
  }

  /** An object literal around the lines. */
  function WrapWithObject(lines: ShieldItemLines): string {
    ObjectOpen + ObjectBody(lines) + ObjectClose
  }

  /** The body is recovered from the object literal, so a list argument is
      embedded as its join and a string argument verbatim. */
  lemma WrapWithObjectRoundTrip(lines: ShieldItemLines)
    ensures UnwrapObject(WrapWithObject(lines)) == Some(ObjectBody(lines))
  {
    StripConcat(ObjectOpen, ObjectBody(lines), ObjectClose);
  }

  /** A single line is wrapped exactly as the same text given as a string:
      no separator is inserted. */
  lemma WrapSingleLine(line: string)
    ensures WrapWithObject(Lines([line])) == WrapWithObject(Text(line))
  {
  }

  /** Each line of an array argument appears verbatim at its offset in the
      join, after the opening brace and indentation: the lines keep their
      order. */
  lemma ObjectLineAt(items: seq<string>, i: nat)
    requires i < |items|
    ensures OccursAt(items[i], WrapWithObject(Lines(items)), |ObjectOpen| + Offset(items, ItemSeparator, i))
  {
    JoinAtFramed(items, ItemSeparator, ObjectOpen, ObjectClose, i);
  }

  /** Every line but the last is followed by `,\r\n`, and the next line
      starts right after it, without indentation. */
  lemma ObjectSeparatorAt(items: seq<string>, i: nat)
    requires i + 1 < |items|
    ensures OccursAt(ItemSeparator, WrapWithObject(Lines(items)), |ObjectOpen| + (Offset(items, ItemSeparator, i) + |items[i]|))
    ensures Offset(items, ItemSeparator, i + 1) == Offset(items, ItemSeparator, i) + |items[i]| + |ItemSeparator|
  {
    JoinSepFramed(items, ItemSeparator, ObjectOpen, ObjectClose, i);
  }

  const ShieldCallOpen := "shield<Context>(\n  "
  const ShieldCallClose := "\n)"

  function UnwrapShieldCall(s: string): Option<string> {
    Strip(s, ShieldCallOpen, ShieldCallClose)
  }

  /** A call of the local `shield` wrapper on the argument. */
  function WrapWithTrpcShieldCall(shieldObjectTextWrapped: string): string {
    ShieldCallOpen + shieldObjectTextWrapped + ShieldCallClose
  }

  /** The argument is embedded verbatim and recovered from the call. */
  lemma WrapWithTrpcShieldCallRoundTrip(shieldObjectTextWrapped: string)
    ensures UnwrapShieldCall(WrapWithTrpcShieldCall(shieldObjectTextWrapped)) == Some(shieldObjectTextWrapped)
  {
    StripConcat(ShieldCallOpen, shieldObjectTextWrapped, ShieldCallClose);
  }

  const ExportOpen := "export const permissions = "
  const ExportClose := ";"

  function UnwrapExport(s: string): Option<string> {
    Strip(s, ExportOpen, ExportClose)
  }

  /** The exported `permissions` constant with the argument as its value. */
  function WrapWithExport(shieldObjectText: string): string {
    ExportOpen + shieldObjectText + ExportClose
  }

  /** The argument is embedded verbatim and recovered from the statement. */
  lemma WrapWithExportRoundTrip(shieldObjectText: string)
    ensures UnwrapExport(WrapWithExport(shieldObjectText)) == Some(shieldObjectText)
  {
    StripConcat(ExportOpen, shieldObjectText, ExportClose);
  }

  // ----- Rule groups -----------------------------------------------------------

  /** The three kinds of operation, in the order their groups are emitted. */
  datatype Kind = Query | Mutation | Subscription

  /** The key of a kind's group in the rule tree. */
  function KindKey(k: Kind): string {
    match k
    case Query => "query"
    case Mutation => "mutation"
    case Subscription => "subscription"
  }

  /** The name of the union type of a kind's operation names. */
  function KeysTypeName(k: Kind): string {
    match k
    case Query => "QueryKeys"
    case Mutation => "MutationKeys"
    case Subscription => "SubscriptionKeys"
  }

  /** Every name mapped to the `allow` rule, in input order, unescaped. */
  function AllowEntries(names: seq<string>): seq<string> {
    seq(|names|, i requires 0 <= i < |names| => names[i] + ": allow")
  }

  /** Every name as a single-quoted string literal, in input order, unescaped. */
  function QuotedNames(names: seq<string>): seq<string> {
    seq(|names|, i requires 0 <= i < |names| => "'" + names[i] + "'")
  }

  /** The group a kind contributes to the root object. */
  function GroupItem(k: Kind, names: seq<string>): string {
    KindKey(k) + ": " + WrapWithObject(Lines(AllowEntries(names))) + ","
  }

  /** The union type declaration a kind contributes. */
  function UnionLine(k: Kind, names: seq<string>): string {
    "export type " + KeysTypeName(k) + " = " + Join(QuotedNames(names), " | ") + ";\n"
  }

  const FieldRuleHead := "?: ShieldRule<TContext> | RuleTypeMap<TContext, "
  const FieldRuleTail := ">;"

  /** The optional `RuleTree` field of a kind: a rule, or a map from the
      kind's operation names to rules. */
  function FieldLine(k: Kind): string {
    KindKey(k) + FieldRuleHead + KeysTypeName(k) + FieldRuleTail
  }

  /** The groups of the non-empty kinds, concatenated without separator. */
  function RootItems(queries: seq<string>, mutations: seq<string>, subscriptions: seq<string>): string {
    (if |queries| > 0 then GroupItem(Query, queries) else "")
    + (if |mutations| > 0 then GroupItem(Mutation, mutations) else "")
    + (if |subscriptions| > 0 then GroupItem(Subscription, subscriptions) else "")
  }

  /** The union declarations of the non-empty kinds, in the same order. */
  function RootTypes(queries: seq<string>, mutations: seq<string>, subscriptions: seq<string>): string {
    (if |queries| > 0 then UnionLine(Query, queries) else "")
    + (if |mutations| > 0 then UnionLine(Mutation, mutations) else "")
    + (if |subscriptions| > 0 then UnionLine(Subscription, subscriptions) else "")
  }

  /** A kind's `RuleTree` field if it has operations, else nothing. */
  function FieldSlot(k: Kind, names: seq<string>): string {
    if |names| > 0 then FieldLine(k) else ""
  }

  /** The fixed text that precedes the union declarations: the generic
      `shield` wrapper and the `RuleTypeMap` helper type. */
  const TrailerHead :=
    "\n\n  export function shield<TContext extends Record<string, any>>(ruleTree: RuleTree<TContext>, options?: IOptions<TContext>) {\n"
    + "    return trpcShield(ruleTree as IRules<TContext>, options);\n"
    + "  }\n\n"
    + "  export type RuleTypeMap<TContext, IRuleKeys extends string> = {\n"
    + "    [K in IRuleKeys]?: ShieldRule<TContext> | IRuleFieldMap<TContext>\n"
    + "  };\n\n  "
  /** The text between the union declarations and the first field slot. */
  const RuleTreeOpen := "\n\n  export type RuleTree<TContext> = {\n    "
  const FieldBreak := "\n    "
  const RuleTreeClose := "\n  };"

  /** The template that closes the module, with its four interpolations. */
  function Trailer(rootTypes: string, queryField: string, mutationField: string, subscriptionField: string): string {
    TrailerHead + rootTypes + RuleTreeOpen
    + queryField + FieldBreak + mutationField + FieldBreak + subscriptionField
    + RuleTreeClose
  }

  /** The header of a non-empty module: the trpc-shield imports, the import of
      the context type from `contextPath` and a blank line. */
  function Header(contextPath: string): string {
    GetImports("trpc-shield", None) + GetImports("context", Some(contextPath)) + "\n\n"
  }

  /** The exported `permissions` statement around the given root items. */
  function Permissions(rootItems: string): string {
    WrapWithExport(WrapWithTrpcShieldCall(WrapWithObject(Text(rootItems))))
  }

  /** The generated permissions module, or "" when there are no operations at
      all. `contextPath` is the already resolved specifier of the module that
      exports the `Context` type. */
  function ConstructShield(queries: seq<string>, mutations: seq<string>, subscriptions: seq<string>,
                           contextPath: string): (r: string)
    ensures r == "" <==> |queries| == 0 && |mutations| == 0 && |subscriptions| == 0
  {
    if |queries| == 0 && |mutations| == 0 && |subscriptions| == 0 then ""
    else
      var rootItems := RootItems(queries, mutations, subscriptions);
      var rootTypes := RootTypes(queries, mutations, subscriptions);
      if |rootItems| == 0 then ""
      else
        Header(contextPath)
        + Permissions(rootItems)
        + Trailer(rootTypes,
                  FieldSlot(Query, queries), FieldSlot(Mutation, mutations), FieldSlot(Subscription, subscriptions))
  }
}
