# gendoc: the configuration reference generator

`script/gendoc/gendoc.go` is the small command-line tool of Fireworq that writes
the Markdown reference of the daemon's configuration. It takes the list of
configuration items (name, category, default value, description and the
command-line argument form), sorts them into per-category buckets in input
order, and prints:

- a fixed preamble;
- a table of contents with one link per item of the `common` and `manual`
  categories, and a fixed entry for the Docker-only variable;
- an anchored section for each of the `common` and `manual` categories (items
  of any other category are not printed), with one block per item: a heading that
  declares the item's anchor, a `Default:` line when the default is not
  empty, and the description;
- a fixed Docker section and the reference-style link definitions.

Each item's names are derived from its snake_case name:
- the environment variable is `FIREWORQ_` plus the upper-cased name;
- the anchor is `env-` plus the name with `_` turned into `-`;
- the link label is the back-quoted environment variable and argument form,
  joined by `, `;
- the link is `[label](#anchor)`.

The model has five modules:

- `Text` (`text.dfy`): the ASCII part of upper-casing and single-character
  replacement. It also has two small readers, split-at-first and
  after-last, which the proofs use to read the generated Markdown back.
- `ConfigItems` (`items.dfy`): the item record and the derived names, with
  their shape, injectivity and read-back lemmas.
- `Buckets` (`buckets.dfy`):
  - the bucketing loop of `printConfigDoc`, as a method over a map;
  - the stable filter `Filter` that specifies it;
  - the order lemmas.
- `Render` (`render.dfy`):
  - the printing routines `printTableOfContents`, `printDescription`,
    `printDescriptions` and `printConfigDoc`, as methods that return the
    lines they print;
  - the specification functions `TocLines`, `Descriptions`, `Page`,
    `Layout` and `Document`;
  - the document-level properties. Every table-of-contents link points at
    an anchor that the same item's heading declares. Rendered items keep
    their input order. Items of other categories add nothing.
- `Gendoc` (`gendoc.dfy`): `main`'s argument check and dispatch, and the
  end-to-end `log_level` example.

Standard output is a sequence of lines. Each element is the argument of one
`Println` call, and a fixed block may span several physical lines. The bytes
written are each element followed by a newline.

## Model

| member | source | states |
|---|---|---|
| Text.UpperAscii | script/gendoc/gendoc.go:114 | a lower-case ASCII letter becomes the upper-case letter 32 code points below; any other character is kept |
| Text.ToUpper | script/gendoc/gendoc.go:114 | upper-casing keeps the length and maps every character independently |
| Text.ReplaceAll | script/gendoc/gendoc.go:130 | replacing every `from` (Go's `-1` count) keeps the length; each `from` becomes `to` and every other character is unchanged |
| Text.ReplaceSingle | script/gendoc/gendoc.go:130 | a name with a single underscore between two underscore-free parts is rewritten at that position only |
| ConfigItems.EnvironmentVariable | script/gendoc/gendoc.go:113-115 | the variable is `FIREWORQ_` followed by the name, character for character, with lower-case letters upper-cased; its length is 9 plus the name's |
| ConfigItems.EnvironmentVariableIsUpperSnake | script/gendoc/gendoc.go:113-115 | for a snake_case name the variable consists only of upper-case letters, digits and `_` |
| ConfigItems.EnvironmentVariableInjective | script/gendoc/gendoc.go:113-115 | two snake_case names with the same environment variable are the same name |
| ConfigItems.AnchorName | script/gendoc/gendoc.go:129-131 | the anchor is `env-` followed by the name, with every `_` turned into `-` and every other character kept; it has no `_`; its length is 4 plus the name's |
| ConfigItems.AnchorNameChars | script/gendoc/gendoc.go:129-131 | for a snake_case name the anchor consists only of lower-case letters, digits and `-` |
| ConfigItems.AnchorNameInjective | script/gendoc/gendoc.go:129-131 | two snake_case names with the same anchor are the same name |
| ConfigItems.LinkLabel | script/gendoc/gendoc.go:121-127 | the label is the back-quoted environment variable and argument joined by `, `: it opens and closes with a back-quote and is 6 characters longer than the variable and the argument together (`LinkLabelReadsBack` reads the two parts back) |
| ConfigItems.LinkLabelReadsBack | script/gendoc/gendoc.go:121-127 | splitting the label at its first comma and removing the back-quotes gives back exactly the environment variable and the argument form |
| ConfigItems.Link | script/gendoc/gendoc.go:117-119 | the link is `[label](#anchor)`: it opens with `[`, closes with `)`, has `#` right before the anchor, and is 5 characters longer than label and anchor together (`LinkShowsLabel` reads the label back, `LinkTargetIsAnchor` the anchor) |
| ConfigItems.LinkShowsLabel | script/gendoc/gendoc.go:117-119 | the text between the link's `[` and `](` is exactly the item's label |
| ConfigItems.LinkTargetIsAnchor | script/gendoc/gendoc.go:117-119 | the fragment after the last `#` of the link, before its closing `)`, is exactly the item's anchor |
| Buckets.Filter | script/gendoc/gendoc.go:38-42 | a bucket is no longer than the input and holds only items of its category |
| Buckets.Bucket | script/gendoc/gendoc.go:41-59 | the bucket of a category is the map's entry for it; a category never inserted has the empty bucket, as reading a Go map at a missing key (lines 41, 45, 48, 55 and 59) gives a nil slice |
| Buckets.Categorize | script/gendoc/gendoc.go:38-42 | after the loop, every category's bucket (the nil slice for a category never seen) is the stable filter of the input by that category; a key is present exactly when its bucket is non-empty |
| Buckets.FilterAppend | script/gendoc/gendoc.go:38-42 | bucketing a concatenation gives the concatenation of the buckets |
| Buckets.FilterMembers | script/gendoc/gendoc.go:38-42 | an item is in a bucket if and only if it is in the input with that category |
| Buckets.FilterPosition | script/gendoc/gendoc.go:38-42 | each item sits in its bucket right after the bucket of the items before it and before the bucket of the items after it |
| Buckets.FilterSingle | script/gendoc/gendoc.go:41 | one item lands in its own category's bucket and in no other |
| Buckets.FilterKeepsOrder | script/gendoc/gendoc.go:38-42 | of two items of one category, the earlier one comes first in the bucket |
| Buckets.FilterSkips | script/gendoc/gendoc.go:38-42 | an item of another category leaves a bucket unchanged |
| Render.TocLine | script/gendoc/gendoc.go:86 | the entry is a nested list bullet: `  - ` followed by exactly the item's link |
| Render.PrintTableOfContents | script/gendoc/gendoc.go:84-88 | prints exactly one line per item, in bucket order, each `  - ` followed by the item's link |
| Render.Heading | script/gendoc/gendoc.go:101-105 | the heading opens with the level-3 anchor tag prefix, closes the anchor's name attribute with `"` right after the anchor, and is the prefix, anchor and label plus 6 characters long (`HeadingShowsLabel` reads the label back, `HeadingAnchorIsAnchor` the anchor) |
| Render.HeadingShowsLabel | script/gendoc/gendoc.go:101-105 | the text between the heading's `">` and `</a>` is exactly the item's label |
| Render.TocLineShowsLabel | script/gendoc/gendoc.go:86 | an item's table-of-contents entry shows its label right after `  - [` |
| Render.DescriptionBlock | script/gendoc/gendoc.go:100-111 | an item's block is its heading, a `Default:` line only when the default is non-empty, and the description unchanged as its last line |
| Render.PrintDescription | script/gendoc/gendoc.go:100-111 | prints 3 lines when the default is non-empty and 2 otherwise: the anchored heading first, `Default: ` with the back-quoted value second only for a non-empty default, and the description unchanged last |
| Render.PrintDescriptions | script/gendoc/gendoc.go:90-94 | prints the items' blocks one after the other, in bucket order |
| Render.PrintConfigDoc | script/gendoc/gendoc.go:22-80 | prints exactly `Document(items)`: the preamble, then the table of contents of the common and manual buckets, then their sections, then the Docker section and the link definitions, in that order |
| Render.DescriptionsAppend | script/gendoc/gendoc.go:90-94 | the blocks of a concatenation are the concatenated blocks |
| Render.DescriptionsLength | script/gendoc/gendoc.go:100-111 | n items print between 2n and 3n lines of blocks |
| Render.HeadingOfBlock | script/gendoc/gendoc.go:90-111 | the k-th item's block starts with its heading, right after the blocks of the earlier items |
| Render.HeadingAnchorOf | script/gendoc/gendoc.go:101-105 | a heading built from an anchor without `"` reads back that anchor |
| Render.HeadingAnchorIsAnchor | script/gendoc/gendoc.go:101-105 | the anchor declared by an item's heading is the item's anchor |
| Render.PageTocCommon | script/gendoc/gendoc.go:44-45 | the common table-of-contents lines follow the preamble and the common bullet |
| Render.PageTocManual | script/gendoc/gendoc.go:47-48 | the manual table-of-contents lines follow the common ones and the manual bullet |
| Render.PageCommon | script/gendoc/gendoc.go:53-55 | the common blocks follow the full table of contents and the common heading |
| Render.PageManual | script/gendoc/gendoc.go:57-59 | the manual blocks follow the common blocks and the manual heading |
| Render.LayoutCommonToc | script/gendoc/gendoc.go:44-45 | the k-th common item's line is at position 2 + k |
| Render.LayoutManualToc | script/gendoc/gendoc.go:47-48 | the k-th manual item's line is at position 3 + (number of common items) + k |
| Render.LayoutCommonSection | script/gendoc/gendoc.go:53-55 | the common section's lines start after all table-of-contents lines and the common heading |
| Render.LayoutManualSection | script/gendoc/gendoc.go:57-59 | the manual section's lines start after the common section and the manual heading |
| Render.PlaceInBucket | script/gendoc/gendoc.go:38-42 | an item is at its own index in its bucket, and its heading at the matching line of the bucket's blocks |
| Render.TocLineAndHeadingOf | script/gendoc/gendoc.go:44-59 | a common or manual item's table-of-contents line comes before its heading, and both are at the computed positions |
| Render.CommonTocLine | script/gendoc/gendoc.go:44-45 | a common item's link line is under the common bullet, at its place among the common items |
| Render.CommonHeading | script/gendoc/gendoc.go:53-55 | a common item's heading is in the common section, at its place among the common blocks |
| Render.ManualTocLine | script/gendoc/gendoc.go:47-48 | a manual item's link line is under the manual bullet, at its place among the manual items |
| Render.ManualHeading | script/gendoc/gendoc.go:57-59 | a manual item's heading is in the manual section, at its place among the manual blocks |
| Render.EveryTocLinkResolves | script/gendoc/gendoc.go:84-119 | no dangling link: for each common or manual item with a snake_case name, the document shows its link before its heading, and the link's target equals the anchor the heading declares |
| Render.EveryTocLinkShowsLabel | script/gendoc/gendoc.go:84-119 | for each common or manual item, both its table-of-contents line and its section heading in the document show the item's label |
| Render.DocumentFollowsInputOrder | script/gendoc/gendoc.go:38-59 | two items of one rendered category keep their input order, both in the table of contents and among the headings |
| Render.UnrenderedCategoriesAddNothing | script/gendoc/gendoc.go:44-59 | inserting an item of a category other than common and manual leaves the document unchanged |
| Render.EmptyInputDocument | script/gendoc/gendoc.go:22-80 | with no items, the document is exactly the eight fixed blocks in order; empty buckets print nothing |
| Render.DocumentSize | script/gendoc/gendoc.go:22-111 | with n rendered items, the document has between 8 + 3n and 8 + 4n lines |
| Gendoc.Run | script/gendoc/gendoc.go:11-20 | with no argument: usage on standard error, nothing on standard output, exit 1; with first argument `config`: the document on standard output and exit 0; with any other first argument: no output and exit 0 |
| Gendoc.LogLevelUpperCased | script/gendoc/gendoc.go:114 | `log_level` upper-cases to `LOG_LEVEL` |
| Gendoc.LogLevelEnvironmentVariable | script/gendoc/gendoc.go:113-115 | the `log_level` item's variable is `FIREWORQ_LOG_LEVEL` |
| Gendoc.LogLevelDashed | script/gendoc/gendoc.go:130 | `log_level` with underscores replaced is `log-level` |
| Gendoc.LogLevelAnchor | script/gendoc/gendoc.go:129-131 | the `log_level` item's anchor is `env-log-level` |
| Gendoc.LogLevelBuckets | script/gendoc/gendoc.go:38-42 | a single common item fills the common bucket and leaves the manual bucket empty |
| Gendoc.LogLevelLabel | script/gendoc/gendoc.go:121-127 | the `log_level` item's label is `` `FIREWORQ_LOG_LEVEL`, `--log-level` `` |
| Gendoc.LogLevelDocument | script/gendoc/gendoc.go:22-111 | the whole document for the `log_level` item alone, with its anchor, variable and label spelled out: its link under the common bullet, its heading, its Default line for `info` and its description in the common section, and an empty manual section |
| Gendoc.SingleItemPage | script/gendoc/gendoc.go:22-80 | the page with one table-of-contents line and one three-line block in the common category only |

## Left out

- Output streams and `os.Exit` are not modelled as effects. `Gendoc.Run` returns what would be written to standard output and standard error, and the exit status.
- Standard output is modelled as the sequence of `Println` arguments. The final `fmt.Print` of the link definitions is modelled as a line holding that text without its last newline; the bytes written are the same.
- The configuration package (`config.Descriptions()` and `Item.Argument()`) is not part of this model. The item list is a parameter, and each item carries its argument form as a field.
- Text.ToUpper: covers ASCII letters only. Go's `strings.ToUpper` also maps non-ASCII letters; configuration names are ASCII snake_case.
- Render.Header: the preamble's wording (lines 23-36) is a constant with no stated value. The model keeps its place as the first printed line but not its text. All the other fixed blocks are kept verbatim.
- Extra arguments after the first are ignored. The usage text `Usage: gendoc <type>` (`script/gendoc/gendoc.go:13`) names one argument, but the code only rejects a missing argument (`len(os.Args) <= 1`); `Gendoc.Run` follows the code.
- The read-back lemmas (`LinkLabelReadsBack`, `LinkTargetIsAnchor`, `HeadingAnchorIsAnchor`, `EveryTocLinkResolves`) assume snake_case names (lower-case ASCII letters, digits, `_`). For other names the printed Markdown is the same, but reading it back is not proved.
- Go's pointers to items (`&configItem{d}`) and method receivers carry no state here, so items are values.
