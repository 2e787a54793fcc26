# trpc-shield rule-tree emitter, modelled in Dafny

The model covers the part of the prisma-trpc-shield generator that builds the text of a trpc-shield
permissions module. The input is three ordered lists of operation names: queries, mutations and
subscriptions. Every operation is allowed. The output module holds:

- the trpc-shield imports and the import of the `Context` type;
- an exported `permissions` constant, which calls `shield` on a rule tree with one group per
  non-empty kind;
- a fixed `shield` wrapper and the `RuleTypeMap` helper type;
- one `*Keys` union type per non-empty kind;
- a `RuleTree` type with one optional field per non-empty kind.

When no operations are given, nothing is emitted: the result is the empty string.

The model is pure. Every emitter function is a Dafny function over `string` (`seq<char>`) and
`seq<string>`, and the properties are lemmas.

- `strings.dfy` (module `Strings`) holds the text tools the emitter relies on:
  - `OccursAt(t, s, k)`: `t` appears in `s` at index `k`;
  - `Strip`: removes a known prefix and suffix, the inverse of wrapping;
  - `Join`: the host language's array join;
  - `Offset`: where each part starts inside a join;
  - `JoinLeft`: a left-to-right reference version of the join.
- `shield.dfy` (module `Shield`) models the five functions of `src/helpers.ts`:
  - `GetImports`;
  - `WrapWithObject`, whose argument is `Lines(...)` for an array or `Text(...)` for a string;
  - `WrapWithTrpcShieldCall`;
  - `WrapWithExport`;
  - `ConstructShield`, with the fixed texts it splices together.

  Each wrapper comes with its unwrapping inverse and a round-trip lemma.
- `shield_properties.dfy` (module `ShieldProperties`) describes the module independently:
  - `Groups` is the list of non-empty `(kind, names)` groups in emission order.
  - `RenderItems` and `RenderUnions` render that list.
  - The lemmas prove that `constructShield`'s branch-by-branch accumulation produces exactly this
    rendering, and where each group, entry, union member and `RuleTree` field sits.

How the pieces fit:

- `ConstructShieldLayout` says that a non-empty module is
  `Header(path) + Permissions(RenderItems(gs)) + Trailer(RenderUnions(gs), slots)`.
- `GroupInModule`, `EntryInObject`, `ObjectSeparatorAt`, `UnionInTypes`, `MemberInUnion`,
  `SeparatorAfterMember` and `TrailerParts` give the position of every piece within those parts.
- `FieldInModule` places each `RuleTree` field in the emitted module itself. The field is at its
  place exactly when its kind has operations.

Some behaviours of the code are modelled as written, even where a simpler reading of the project
suggests otherwise:

- The lines of an array argument of `wrapWithObject` are joined with `,\r\n` (carriage return
  included). Only the first line is indented with two spaces (`ObjectSeparatorAt`).
- The per-kind groups in `rootItems` follow one another with no separator, and each ends in `,`.
  The union declarations in `rootTypes` are concatenated the same way, and each ends in `;\n`.
- Operation names are spliced into the output unescaped: a name holding `'` stays as it is inside
  its single-quoted union member.
- `getImports('context')` with no path prints `undefined` in place of the path
  (`PathText(None)`), as the host's template interpolation does.

## Model

| member | source | states |
|---|---|---|
| Shield.GetImports | src/helpers.ts:6-21 | The statement is empty exactly when the tag is none of `trpc`, `trpc-shield` and `context`. |
| Shield.GetImportsPath | src/helpers.ts:6-21 | The context import carries the given path verbatim, and `ImportedPath` reads it back. No other statement depends on the path. |
| Shield.WrapWithObjectRoundTrip | src/helpers.ts:23-36 | Unwrapping the object literal gives back the join of the lines with `,\r\n` for an array, and the string verbatim for a string. |
| Shield.WrapSingleLine | src/helpers.ts:23-36 | A one-line array is wrapped exactly like the same text passed as a string: no separator is added. |
| Shield.ObjectLineAt | src/helpers.ts:29-33 | Every line of an array argument appears verbatim in the object literal, at its offset after the opening brace and indentation, in input order. |
| Shield.ObjectSeparatorAt | src/helpers.ts:29-33 | Every line except the last is followed by `,\r\n`. The next line starts right after it, with no indentation. |
| Shield.WrapWithTrpcShieldCallRoundTrip | src/helpers.ts:38-49 | The call embeds its argument verbatim, and unwrapping recovers it. |
| Shield.WrapWithExportRoundTrip | src/helpers.ts:51-57 | The export statement embeds its argument verbatim, and unwrapping recovers it. |
| Shield.ConstructShield | src/helpers.ts:59-160 | The result is empty exactly when all three lists are empty. |
| ShieldProperties.GroupsEmpty | src/helpers.ts:72-78 | There are no groups exactly when there are no operations. |
| ShieldProperties.SecondGuardNeverFires | src/helpers.ts:114 | Once some list is non-empty, `rootItems` is non-empty, so the second emptiness check never returns. |
| ShieldProperties.GroupsFaithful | src/helpers.ts:80-112 | There is a group for a kind exactly when its list is non-empty. Each group holds its kind's names unchanged. Groups follow the order query, mutation, subscription. |
| ShieldProperties.RootItemsMatchGroups | src/helpers.ts:80-112 | The accumulated `rootItems` equals the concatenation, in group order and with nothing between, of `<kind>: ` + the object literal of the `<name>: allow` entries + `,`. |
| ShieldProperties.RootTypesMatchGroups | src/helpers.ts:80-112 | The accumulated `rootTypes` equals the concatenation, in the same order, of one `export type <Kind>Keys = ...;\n` declaration per group. |
| ShieldProperties.GroupInItems | src/helpers.ts:80-112 | Each group's text sits verbatim in `rootItems` at its offset among the groups. |
| ShieldProperties.EntryInObject | src/helpers.ts:83-85 | In a group's object literal, the entry `<name>: allow` of the j-th name sits at the j-th entry offset: every name, unescaped, in input order. |
| ShieldProperties.UnionInTypes | src/helpers.ts:80-112 | Each union declaration sits verbatim in `rootTypes` at its offset among the declarations. |
| ShieldProperties.MemberInUnion | src/helpers.ts:88-90 | In a union declaration, the j-th member is the j-th name in single quotes, unescaped, at its offset after `export type <Kind>Keys = `. |
| ShieldProperties.SeparatorAfterMember | src/helpers.ts:88-90 | Every member except the last is followed by ` \| `, and the next member starts right after it. |
| ShieldProperties.ConstructShieldLayout | src/helpers.ts:114-159 | A non-empty module is the header, then the permissions statement around the rendered groups, then the closing template with the rendered union declarations and one field slot per kind. |
| ShieldProperties.HeaderShape | src/helpers.ts:115-122 | The header is the trpc-shield imports, the import of `Context` from the given path (which can be read back) and a blank line. |
| ShieldProperties.PermissionsDecode | src/helpers.ts:123-127 | Removing the export, the `shield` call and the braces from the permissions statement gives back exactly `rootItems`. |
| ShieldProperties.GroupInModule | src/helpers.ts:123-127 | Each group's text sits in the module at its offset among the groups, shifted by what precedes the root object's body. |
| ShieldProperties.TrailerParts | src/helpers.ts:129-157 | In the closing template, the union declarations follow the fixed head. Then come the query, mutation and subscription field slots, in this order and separated by a line break, and then the closing `};`. |
| ShieldProperties.FieldInModule | src/helpers.ts:141-155 | In a non-empty module, a kind's `RuleTree` field appears at its place exactly when the kind has operations. Its place follows the header, the permissions statement, the fixed head, the union declarations, the `RuleTree` opening and the earlier slots, each earlier slot followed by a line break. When the kind has no operations, a line break or the closing `};` stands there instead. |
| ShieldProperties.FieldRefersToUnion | src/helpers.ts:141-155 | A kind's field starts with the kind's group key and names the same `<Kind>Keys` type that the kind's union declaration declares. |
| Strings.JoinAt | src/helpers.ts:31 | In a join, each part appears verbatim at its offset, followed by the separator unless it is the last. |
| Strings.OffsetIncreasing | src/helpers.ts:31 | With a non-empty separator, the parts occupy disjoint ranges in increasing order. |
| Strings.JoinLength | src/helpers.ts:31 | A join is as long as its parts plus one separator between each two neighbours. |
| Strings.JoinMatchesLeftFold | src/helpers.ts:31 | The join equals the left-to-right reference that appends a separator and then the next part. |

## Left out

- `parseEnvValue` and `getRelativePath` (src/helpers.ts:2, 4, 116-120) are foreign calls. The
  resolved module specifier of the context import is a plain `contextPath` parameter of
  `ConstructShield`.
- The `Config` and `GeneratorOptions` records are not modelled beyond that one path.
- Writing the generated file and the generator's lifecycle are I/O done by the caller.
- Character encoding: strings are sequences of characters. Lengths and offsets count characters,
  not UTF-16 code units.
- UnionInTypes: places each union declaration in `rootTypes`, not in the emitted module.
  `ConstructShieldLayout` and the `Trailer` definition supply the rest: `rootTypes` follows the
  fixed head of the closing template.
- EntryInObject: places each entry in the group's object literal, not in the emitted module. By
  its definition, a group's text is `<kind>: `, then that literal, then `,`.
