# bosh-template-go: the template evaluation context, in Dafny

bosh-template-go renders the ERB templates of a BOSH job outside a BOSH
director. The Go side writes the Ruby script
`rb/template_evaluation_context.rb` and two YAML documents (the evaluation
context and the instance information) to a temporary directory. It then runs
the script on those two files, the job-spec file path its caller gave it, the
template and the destination. The script assembles what a BOSH template sees
and hands it to the `bosh-template` gem:

- the job spec, with a nil `properties` entry replaced by an empty Hash;
- the links the job consumes, read from
  `properties.bosh_containerization.consumes`;
- the instance descriptor `spec`, with a single `default` network;
- the context's `properties`.

The script then writes the rendered text to the destination. The file gets mode
0755 when its parent directory is named `bin`, and the template's own mode
otherwise.

This project models that script:

- `values.dfy` (module `Values`): the YAML-loaded Ruby objects and the few
  Ruby operations the script uses: `[]` with a String key, `empty?` and
  `each`, each with the exception Ruby raises for a receiver that lacks it;
  `Hash#[]=`; and truthiness. The other receivers of `[]=` are handled where
  the script calls it, in `JobSpec`, and `each_pair` where the script calls
  it, in `Links.CollectLinks`.
- `jobspec.dfy` (module `JobSpec`): the job-spec default.
- `links.dfy` (module `Links`): link collection.
  - The script's two nested loops are the methods `BuildLinks`,
    `BuildLinksFrom`, `BuildLink` and `BuildInstances`. Each is proved equal to
    a recursive function (`CollectLinks`, `LinksFrom`, `LinkFor`,
    `InstanceRecords`).
  - Lemmas relate those functions to a filter-and-map reference,
    `DeclaredLinks`.
- `instance.dfy` (module `Instance`): the instance descriptor, and the
  instance information as the Go caller serializes it.
- `paths.dfy` (module `Paths`): Ruby's `File.dirname` and `File.basename` on
  POSIX paths, and the output-mode rule. Both are characterized through an
  independent split of the path into names (`Components`, `ParentName`).
- `context.dfy` (module `Context`): the whole script. It is a function
  `Render` and a method `RenderTemplate` that runs the loops. The template
  engine is a function parameter, and the filesystem is reduced to the
  template's mode and the destination path.

## Model

| member | source | states |
|---|---|---|
| Values.Fetch | rb/template_evaluation_context.rb:36-48 | `recv['key']`: a Hash gives the stored value or nil. A String gives the key when it contains it, else nil. Integer and Array raise TypeError; nil and booleans raise NoMethodError. |
| Values.IsEmpty | rb/template_evaluation_context.rb:38 | `empty?` succeeds exactly on String, Array and Hash, and is true exactly for `""`, `[]` and `{}`. Any other receiver raises NoMethodError for `empty?`. |
| Values.EachElements | rb/template_evaluation_context.rb:41 | `each` yields an Array's elements, or a Hash's `[key, value]` pairs in order. Any other receiver raises NoMethodError for `each`. |
| Values.Truthy | rb/template_evaluation_context.rb:36 | Only nil and false are false in a condition: `true` is true, and every integer, string, array and hash is true, empty or not. |
| Values.Store | rb/template_evaluation_context.rb:21 | `Hash#[]=` adds at most one entry and never removes one. |
| Values.StoreLookup | rb/template_evaluation_context.rb:21 | `Hash#[]=`: the key then reads back the new value and every other key reads as before. |
| Values.StoreKeys | rb/template_evaluation_context.rb:21 | `Hash#[]=` keeps an existing key in its place and puts a new key last. |
| Values.GetStored | rb/template_evaluation_context.rb:43-48 | When a Hash's keys are distinct, each key reads back the value stored beside it. |
| JobSpec.NormalizeJobSpec | rb/template_evaluation_context.rb:21 | Normalizing succeeds exactly on a Hash, or a String containing "properties", and keeps a Hash a Hash. A non-nil `properties` leaves the spec unchanged. The receiver cases: a String without "properties" raises IndexError, Integer and Array raise TypeError, nil and booleans raise NoMethodError. |
| JobSpec.NormalizedHash | rb/template_evaluation_context.rb:21 | On a Hash, a nil or missing `properties` becomes `{}` and a non-nil one is kept; every other key reads as before; the keys keep their order, with `properties` appended when it was missing. |
| JobSpec.NormalizeIdempotent | rb/template_evaluation_context.rb:21 | Normalizing a normalized job spec changes nothing. |
| Links.InstanceRecord | rb/template_evaluation_context.rb:42-49 | One instance record copies address, az, bootstrap, id, index and name verbatim from a Hash. It fails exactly when the item is neither Hash nor String. |
| Links.ConsumesDeclaration | rb/template_evaluation_context.rb:36 | The `properties && ...['bosh_containerization'] && ...['consumes']` test: a declaration it finds is truthy. A String context finds none; a nil or boolean context raises NoMethodError, Integer and Array raise TypeError. |
| Links.InstanceRecords | rb/template_evaluation_context.rb:40-50 | The records of a successful inner loop are as many as the instances. |
| Links.LinkFor | rb/template_evaluation_context.rb:38-56 | A pass succeeds only on a Hash declaration, and a link it yields carries the pair's key as its name and at least one instance. |
| Links.LinksFrom | rb/template_evaluation_context.rb:37-57 | Each pair of `consumes` yields at most one link. |
| Links.CollectLinks | rb/template_evaluation_context.rb:35-37 | Building links succeeds only on a Hash or String context, and a String context gives no links. A nil or boolean context raises NoMethodError; Integer and Array raise TypeError. |
| Links.ConsumesPresent | rb/template_evaluation_context.rb:35-58 | When `consumes` is present at `properties.bosh_containerization`, the links are those built from its pairs: they succeed iff every declaration is acceptable, and are then exactly `DeclaredLinks`. A truthy `consumes` that is not a Hash raises NoMethodError for `each_pair`. |
| Links.BuildInstances | rb/template_evaluation_context.rb:40-50 | The inner loop returns exactly `InstanceRecords(items)`: all records in order, or the first exception. |
| Links.BuildLink | rb/template_evaluation_context.rb:38-56 | One pass of the `each_pair` block returns exactly `LinkFor`: skipped, one link, or the exception. |
| Links.BuildLinksFrom | rb/template_evaluation_context.rb:37-57 | The outer loop returns exactly `LinksFrom(consumes)`; the first raising pass stops it. |
| Links.BuildLinks | rb/template_evaluation_context.rb:35-58 | The script's link-building returns exactly `CollectLinks(contextHash)`. |
| Links.InstanceRecordsCorrespond | rb/template_evaluation_context.rb:40-50 | The records succeed iff every item is a Hash or String. They keep the items' length and order, and record k is item k's record. |
| Links.LinkForCharacterized | rb/template_evaluation_context.rb:38-56 | One pass succeeds iff the declaration is acceptable. Then it gives the declared link (name, address, records, properties verbatim) when instances are listed, and nothing otherwise. |
| Links.LinksFromCharacterized | rb/template_evaluation_context.rb:37-57 | Collection succeeds iff every declaration is acceptable. Then it equals `DeclaredLinks`: one link per declaration with instances, in enumeration order. |
| Links.EmptyInstancesAsUndeclared | rb/template_evaluation_context.rb:38 | A declaration whose instances are `[]`, `{}` or `""` leaves the result as if it were not declared. |
| Links.DeclaredLinkByName | rb/template_evaluation_context.rb:51-56 | With distinct keys, the links named by a key are exactly the declared link when its declaration lists instances, and none otherwise. |
| Links.LinksNamedConcat | rb/template_evaluation_context.rb:51 | Appending links appends the links carrying a given name. |
| Links.LinkNamesFromKeys | rb/template_evaluation_context.rb:52 | Every link is named by a key of `consumes`. |
| Links.NoLaterLinkNamed | rb/template_evaluation_context.rb:37-57 | With distinct keys, no link built after the first pair carries the first key. |
| Links.AbsentConsumesGivesNoLinks | rb/template_evaluation_context.rb:35-36 | A nil `properties`, `bosh_containerization` or `consumes` gives no links. |
| Links.MissingInstancesRaises | rb/template_evaluation_context.rb:38 | A Hash declaration without an `instances` entry raises NoMethodError for `nil.empty?`, and that exception ends the collection. |
| Links.SkippedDeclaration | rb/template_evaluation_context.rb:38 | A Hash declaration with empty instances yields `next`, not an exception. |
| Links.SingleInstanceLink | rb/template_evaluation_context.rb:38-56 | A declaration listing one Hash instance yields one link holding that instance's record and the declaration's address and properties. |
| Links.ProviderRecord | bosh_template_go_test.go:259-265 | The test instance becomes its record, with bootstrap nil. |
| Links.ProviderLink | bosh_template_go_test.go:246-298 | The test's `myprovider` declaration yields one link with nil address and its exported properties. |
| Links.ProviderContextLinks | bosh_template_go_test.go:246-298 | For the link tests' context, the script hands the engine exactly that one link. |
| Instance.DefaultNetworks | rb/template_evaluation_context.rb:70-74 | `networks` has exactly one key, `default`, holding exactly `ip` and `dns_record_name`, set to the instance's ip and address. |
| Instance.BuildInstanceSpec | rb/template_evaluation_context.rb:61-75 | The descriptor copies its eight fields from a Hash verbatim. `bootstrap` is copied, not derived; `networks` repeats ip and address. Non-Hash/String input raises as Ruby does. |
| Instance.InstanceInfoDocument | bosh_template_go.go:35-43 | The Go caller's instance document is a Hash with seven distinct keys, one per struct field, and no `bootstrap` key. |
| Instance.DescriptorOfCallerInstance | bosh_template_go.go:106-112 | For instance info from the Go caller, the descriptor carries its fields unchanged, with `bootstrap` nil. |
| Paths.Dirname | rb/template_evaluation_context.rb:90 | `File.dirname` is never empty; a path without a separator has dirname "."; an absolute path has an absolute dirname. |
| Paths.Basename | rb/template_evaluation_context.rb:90 | `File.basename` is one name without separators, or "/"; a path without a separator is its own basename. |
| Paths.OutputMode | rb/template_evaluation_context.rb:90-94 | The written file's mode is 0755 or the template's mode; a destination without a directory keeps the template's mode. |
| Paths.ParentDirectoryName | rb/template_evaluation_context.rb:90 | `File.basename(File.dirname(p))` is the next-to-last name of `p`. With one name it is "/" for an absolute path and "." otherwise. |
| Paths.OutputModeByParentName | rb/template_evaluation_context.rb:90-94 | The output mode is 0755 exactly when the destination's next-to-last name is `bin`, and the template's mode otherwise. |
| Paths.OnlyImmediateParentCounts | rb/template_evaluation_context.rb:90-94 | For `dir/parent/file`, only `parent` decides the mode. `bin` higher up, or as the file name, does not. |
| Context.TemplateMode | rb/template_evaluation_context.rb:27-32 | The template's mode, or "failed to read template file <path>" when it is missing. |
| Context.Render | rb/template_evaluation_context.rb:17-94 | Exceptions surface in the script's order: job spec, template, links, instance descriptor. |
| Context.RenderedAsEngineOutput | rb/template_evaluation_context.rb:78-94 | Once the context is built, the engine's text is written unmodified and its exception is the script's. The mode follows the `bin` rule by parent name. |
| Context.RenderTemplate | rb/template_evaluation_context.rb:17-94 | The script, running the link loops, produces exactly `Render`. |

## Left out

- Reading and writing files:
  - `YAML.load_file` is replaced by the loaded `Value`s themselves.
  - `File.stat` is replaced by the template's mode, or None when the template is missing.
  - `FileUtils.mkdir_p`, `File.open`, `write`, `chmod` and `close` are not modelled, nor the "failed to open output file" error they can raise. The model's result is the text and mode the script would write.
- Progress messages printed on standard output are not modelled.
- The `bosh-template` gem (`Template.new`, `render`, `InstanceSpec`, `Link`) is a function parameter. How it renders ERB, and how it presents a nil `bootstrap` to a template, is not part of this model.
- YAML types other than nil, booleans, integers, strings, arrays and string-keyed hashes (floats, symbols, non-string keys, aliases) are not modelled.
- Paths.OutputMode: the value handed to `chmod`. It includes the file-type bits of `File.stat(...).mode`, which the kernel ignores.
- The Go side (`Render`, `run`, the `check*` helpers, the embedded script box) and `bosh_erb_renderer.rb` are not part of this model. The Go caller is modelled only as the instance document it writes.
- The descriptor's `bootstrap` is copied from the instance information. It is not derived from the index, so the model follows the script here; the Go caller never sends one.
- Rendering here is not a write to a temporary file followed by a rename: the script writes the destination directly, and the model follows it.
