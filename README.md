# Langflow tool synthesis, search result shaping, user update and release rewrites, in Dafny

This project models four parts of Langflow and proves properties of the model.

1. **Component-to-tool synthesis** (`component_tool.dfy`, module `ComponentTool`).
   A component declares ordered inputs and outputs. `ComponentToolkit.get_tools` makes one agent tool for every output except the component's own tool output. Each tool has:
   - a name, sanitised to `[a-zA-Z0-9_-]`;
   - a description `method(args) - description`, with the argument strings sorted;
   - the list of inputs handed to the schema generator;
   - a callable that writes its keyword arguments into the component's inputs and then runs the output method.

   The component is a class whose `inputs` field the callable updates. `GetTools` is the loop of `get_tools`, proved equal to a recursive specification `Tools`. The lemmas about `Tools` state:
   - one tool per kept output, in order;
   - otherwise the exception of the first failing output.
2. **Search result shaping** in two tool components.
   - `serp_api.dfy`: SerpAPI's `search_func` keeps the first `max_results` organic results and cuts title and snippet. Its `run_model` turns them into `Data` records or one error record.
   - `tavily_search.dfy`: Tavily's `_tavily_search` maps the results to records, puts an answer record first and an images record last, and turns HTTP and other failures into one error record.
3. **User update** (`user_crud.dfy`).
   - `update_user` writes the non-`None` fields of an update onto the stored record, raises 304 when nothing is written, stamps `updated_at` and commits.
   - `update_user_last_login_at` turns every failure into `None`.
4. **Release scripts** under `scripts/ci`. They rewrite `pyproject.toml` text:
   - `toml_rewrite.dfy` writes the two regular-expression substitutions out by hand: the key-anchored `(?<=^KEY = ")[^"]+(?=")` under `re.MULTILINE`, and a fixed-text substitution;
   - `update_pyproject_name.dfy`, `update_pyproject_version.dfy` and `update_lf_base_dependency.dfy` model the three scripts' functions and their `main` argument checks and dispatch;
   - `ci_common.dfy` holds what the scripts share.

`common.dfy` holds `Option`, `Result`, the JSON-like `Value`, Python truthiness, `Data` and component `status`. `strings.dfy` holds:
- `str.join`;
- Python's string order;
- an insertion sort proved sorted and a permutation, with the same output for every permutation of the input;
- decimal rendering and parsing of naturals;
- Python's `s[:n]`.

The key-anchored substitution is modelled the way the regular-expression engine runs: a left-to-right scan that tests the lookbehind on the text already passed. `TomlRewrite.SubBySegments` proves that it equals a simpler view. The text is cut at its quotes, and a segment is replaced exactly when three things hold:
- it is not empty;
- a quote closes it;
- the text before its opening quote ends with a line-initial `KEY = `.

`_format_tool_name` runs after the dot is inserted (`component_tool.py:84-85`), so the calculator's tool is named `Calculator-add` (`ComponentTool.CalculatorExample`).

## Model

| member | source | states |
|---|---|---|
| ComponentTool.InputType | src/backend/base/langflow/base/tools/component_tool.py:22-27 | a single tag is returned as it is; several tags are joined by `" \| "` in declared order; with no tag the result is the field type |
| ComponentTool.InputTypeIsJoin | src/backend/base/langflow/base/tools/component_tool.py:23-26 | whenever a tag is declared, the type is the `" \| "`-join of all tags |
| ComponentTool.Lookup | src/backend/base/langflow/base/tools/component_tool.py:80 | `_inputs[name]` finds an input exactly when the name is declared, and the input found carries that name |
| ComponentTool.SelectInputs | src/backend/base/langflow/base/tools/component_tool.py:80 | succeeds exactly when every required name is declared, giving the inputs in the order of the names; otherwise a `KeyError` for the first undeclared name |
| ComponentTool.ArgListPermutation | src/backend/base/langflow/base/tools/component_tool.py:35-41 | rearranging the required names rearranges the `"name: type"` strings |
| ComponentTool.Describe | src/backend/base/langflow/base/tools/component_tool.py:30-45 | the description fails exactly when the required-input lookup fails; the warning is logged exactly when no input is required |
| ComponentTool.DescribeCorrect | src/backend/base/langflow/base/tools/component_tool.py:30-45 | the description is `method(args) - description`: args is a sorted rearrangement of the `"name: type"` strings joined by `", "`, and `method() - description` when no input is required; a failure names a required input |
| ComponentTool.DescriptionPermutationInvariant | src/backend/base/langflow/base/tools/component_tool.py:34-42 | any order of the same required inputs gives the same description and the same warning |
| ComponentTool.CalculatorDescription | src/backend/base/langflow/base/tools/component_tool.py:34-45 | required inputs `y, x` give `add(x: int, y: int) - adds numbers` |
| ComponentTool.FormatToolName | src/backend/base/langflow/base/tools/component_tool.py:56-60 | length kept; characters in `[a-zA-Z0-9_-]` kept; every other character becomes `-`; every output character is in the set |
| ComponentTool.FormatToolNameIdempotent | src/backend/base/langflow/base/tools/component_tool.py:56-60 | sanitising twice equals sanitising once |
| ComponentTool.FormatToolNameFixesValidNames | src/backend/base/langflow/base/tools/component_tool.py:56-60 | a name inside the set is unchanged |
| ComponentTool.ToolName | src/backend/base/langflow/base/tools/component_tool.py:84-85 | the tool name is the sanitised component name, `-` in place of the dot, then the sanitised method name |
| ComponentTool.ToolNamesDistinct | src/backend/base/langflow/base/tools/component_tool.py:84-85 | two methods of a component get equal tool names exactly when their sanitised names are equal |
| ComponentTool.ToolNamesCanCollide | src/backend/base/langflow/base/tools/component_tool.py:84-85 | methods `a.b` and `a-b` get the same tool name |
| ComponentTool.SchemaInputs | src/backend/base/langflow/base/tools/component_tool.py:78-83 | with required inputs the schema gets exactly those, in their order; without, all inputs of the component |
| ComponentTool.BuildTool | src/backend/base/langflow/base/tools/component_tool.py:73-92 | the tool of one output, or the exception that aborts the loop; a built tool runs the output's method; specified in full by `BuildToolCorrect` |
| ComponentTool.BuildToolCorrect | src/backend/base/langflow/base/tools/component_tool.py:73-92 | an output with no method raises `ValueError`; an unknown method raises next; a tool is built exactly when the method is set and known and the inputs resolve; the tool has the sanitised name, the method, the schema inputs and the description |
| ComponentTool.Tools | src/backend/base/langflow/base/tools/component_tool.py:67-94 | the tools of all outputs but `TOOL_OUTPUT_NAME`; specified by `ToolsFromSucceeds`, `ToolsFromInOrder`, `ToolsFromFirstError` and `ToolsCorrect` |
| ComponentTool.ToolsFromSucceeds | src/backend/base/langflow/base/tools/component_tool.py:67-94 | the loop returns a list exactly when every output not named `TOOL_OUTPUT_NAME` yields a tool |
| ComponentTool.ToolsFromInOrder | src/backend/base/langflow/base/tools/component_tool.py:67-94 | on success there is one tool per kept output, the k-th built from the k-th kept output |
| ComponentTool.ToolsFromFirstError | src/backend/base/langflow/base/tools/component_tool.py:69-80 | on failure the exception is that of the first kept output that cannot be built, all earlier ones having built |
| ComponentTool.ToolsCorrect | src/backend/base/langflow/base/tools/component_tool.py:67-94 | the whole `get_tools` contract: success exactly when all kept outputs build, then one tool per kept output in order; otherwise the first failure's exception and no list |
| ComponentTool.ToolNamesFollowOutputs | src/backend/base/langflow/base/tools/component_tool.py:84-91 | the k-th tool carries the sanitised `<component>.<method>` name, the method, the schema inputs and the description of the k-th kept output |
| ComponentTool.CalculatorExample | src/backend/base/langflow/base/tools/component_tool.py:67-94 | the calculator component yields the single tool `Calculator-add`, described `add(x: int, y: int) - adds numbers`, with schema inputs `y, x` |
| ComponentTool.Assign | src/backend/base/langflow/base/tools/component_tool.py:50 | each input named in the arguments takes the given value; names, tags, field types and other inputs are unchanged |
| ComponentTool.AssignKeepsNames | src/backend/base/langflow/base/tools/component_tool.py:50 | writing arguments keeps the set of input names and their distinctness |
| ComponentTool.Component.Set | src/backend/base/langflow/base/tools/component_tool.py:50 | the arguments are written exactly when each names an input; a rejected call changes nothing |
| ComponentTool.RunTool | src/backend/base/langflow/base/tools/component_tool.py:48-53 | the callable writes the arguments first, then returns the method's result on the new inputs unchanged; the written values stay in the component |
| ComponentTool.ComponentToolkit.GetTools | src/backend/base/langflow/base/tools/component_tool.py:67-94 | the loop's result equals `Tools` of the component's declaration |
| SerpApi.BuildWrapper | src/backend/base/langflow/components/tools/SerpAPI.py:36-42 | the wrapper gets the search parameters exactly when they are truthy, and always the API key |
| SerpApi.EffectiveParams | src/backend/base/langflow/components/tools/SerpAPI.py:50 | `params or {}`: truthy parameters pass through; `None` and `{}` become `{}` |
| SerpApi.Limit | src/backend/base/langflow/components/tools/SerpAPI.py:52-61 | the number of limited results is the length of Python's `[:max_results]` of the organic results |
| SerpApi.LimitResult | src/backend/base/langflow/components/tools/SerpAPI.py:56-60 | the dictionary of one organic result; specified by `LimitResultFields` |
| SerpApi.LimitCountAndOrder | src/backend/base/langflow/components/tools/SerpAPI.py:52-61 | for a non-negative limit, `min(max_results, len)` entries, entry i built from organic result i |
| SerpApi.MissingOrganicResults | src/backend/base/langflow/components/tools/SerpAPI.py:52 | no `organic_results` key gives no entries |
| SerpApi.LimitResultFields | src/backend/base/langflow/components/tools/SerpAPI.py:57-59 | title and snippet are prefixes of length `min(len, max_snippet_length)`, the link is copied, and a missing value becomes `""` |
| SerpApi.ToDict | src/backend/base/langflow/components/tools/SerpAPI.py:56-60 | each entry has exactly the keys `title`, `link`, `snippet` with the limited values |
| SerpApi.NoParamsSearchEmpty | src/backend/base/langflow/components/tools/SerpAPI.py:48-51 | `params=None` searches with `{}`, the same as an explicit `{}` |
| SerpApi.SearchOutcome | src/backend/base/langflow/components/tools/SerpAPI.py:47-63 | the limited results of the response to the search with `params or {}`, or the search's exception; specified by `NoParamsSearchEmpty`, `LimitCountAndOrder` and `MissingOrganicResults` |
| SerpApi.SearchFunc | src/backend/base/langflow/components/tools/SerpAPI.py:47-63 | the loop returns the limited results of the response, or the exception of the search |
| SerpApi.SerpComponent.BuildTool | src/backend/base/langflow/components/tools/SerpAPI.py:44-73 | the tool `serp_search_api` over the chosen wrapper; the status becomes `SerpAPI Tool created` |
| SerpApi.SerpComponent.RunModel | src/backend/base/langflow/components/tools/SerpAPI.py:75-94 | one record per limited result, whose text is its snippet, and the status is that list; on an exception one error record and the status `Error: <message>` |
| TavilySearch.ResultData | src/backend/base/langflow/components/tools/TavilyAISearch.py:133-143 | a result record has exactly `title`, `url`, `content`, `score`, a missing one being `None` |
| TavilySearch.Shape | src/backend/base/langflow/components/tools/TavilyAISearch.py:133-149 | the records of a successful search; specified by `ShapeLength`, `AnswerFirst`, `ImagesLast`, `ResultsInOrder` and `MissingResults` |
| TavilySearch.Outcome | src/backend/base/langflow/components/tools/TavilyAISearch.py:133-162 | the records and the status message for the three ways the request ends; specified by `HttpErrorRecord` and, for a body, through `Shape` |
| TavilySearch.ShapeLength | src/backend/base/langflow/components/tools/TavilyAISearch.py:133-149 | the record count is the result count, plus one for an answer, plus one for images |
| TavilySearch.AnswerFirst | src/backend/base/langflow/components/tools/TavilyAISearch.py:145-146 | the first record is the answer record exactly when `include_answer` is set and the answer is truthy |
| TavilySearch.ImagesLast | src/backend/base/langflow/components/tools/TavilyAISearch.py:148-149 | the last record is the images record exactly when `include_images` is set and the images are truthy |
| TavilySearch.ResultsInOrder | src/backend/base/langflow/components/tools/TavilyAISearch.py:133-146 | result k sits at position k, after the answer record if there is one |
| TavilySearch.MissingResults | src/backend/base/langflow/components/tools/TavilyAISearch.py:142 | no `results` key gives no result records |
| TavilySearch.HttpErrorRecord | src/backend/base/langflow/components/tools/TavilyAISearch.py:154-157 | an HTTP status error gives exactly `[{"error": "HTTP error: <code> - <text>"}]` |
| TavilySearch.HttpErrorMessageCode | src/backend/base/langflow/components/tools/TavilyAISearch.py:155 | the status code can be read back from the error message |
| TavilySearch.TavilyComponent.Search | src/backend/base/langflow/components/tools/TavilyAISearch.py:102-162 | the records built in place equal the shaped response; the status is the list on success and the error message otherwise |
| TavilySearch.TavilyComponent.RunModel | src/backend/base/langflow/components/tools/TavilyAISearch.py:84-92 | the search runs with the component's six fields in parameter order |
| UserCrud.Merge | src/backend/base/langflow/services/database/models/user/crud.py:30-35 | the record after the writes of the loop; specified by `MergeKeys`, `MergeValues`, `NoneNeverOverwrites`, `WrittenValue` and `MergeNoWrites` |
| UserCrud.UpdateOutcome | src/backend/base/langflow/services/database/models/user/crud.py:22-49 | the outcome of `update_user`; specified by `FailureCases`, `StampOverridesUpdate` and `ChangedWithoutDifference` |
| UserCrud.MergeKeys | src/backend/base/langflow/services/database/models/user/crud.py:32-34 | the writes never add or remove an attribute |
| UserCrud.MergeValues | src/backend/base/langflow/services/database/models/user/crud.py:30-35 | each attribute ends with the non-`None` value the update gives it, and otherwise keeps its value |
| UserCrud.NoneNeverOverwrites | src/backend/base/langflow/services/database/models/user/crud.py:33 | a field set to `None` or not set keeps its value |
| UserCrud.WrittenValue | src/backend/base/langflow/services/database/models/user/crud.py:33-34 | a pair naming an attribute with a non-`None` value is written |
| UserCrud.MergeNoWrites | src/backend/base/langflow/services/database/models/user/crud.py:37-38 | with nothing written the record is as it was |
| UserCrud.ChangedWithoutDifference | src/backend/base/langflow/services/database/models/user/crud.py:33-35 | writing a field's current value still counts as a change, so the call commits |
| UserCrud.StampOverridesUpdate | src/backend/base/langflow/services/database/models/user/crud.py:40 | on success `updated_at` is the clock reading, even when the update supplied one |
| UserCrud.FailureCases | src/backend/base/langflow/services/database/models/user/crud.py:23-47 | no record gives 404; 304 exactly when nothing is written; an integrity error gives 400 with its message |
| UserCrud.UpdateUser | src/backend/base/langflow/services/database/models/user/crud.py:22-49 | the loop and the stamp produce the outcome `UpdateOutcome` describes; the record holds the merged, stamped attributes when something was written and is untouched otherwise |
| UserCrud.UpdateLastLoginAt | src/backend/base/langflow/services/database/models/user/crud.py:52-58 | an update of `last_login_at` alone; the user on success and `None` for every failure; the record is unchanged when nothing is written and holds the login time and the stamp otherwise, also after an integrity error |
| TomlRewrite.Sub | scripts/ci/update_pyproject_name.py:15-19 | `re.sub` of the key-anchored pattern, as the engine scans; specified by `SubBySegments`, `SubWithoutMatch`, `SpansLinesAnyTable` and `SubIdempotent` |
| TomlRewrite.Found | scripts/ci/update_pyproject_name.py:17 | `re.search` of the key-anchored pattern; specified with `Sub` by `SubWithoutMatch` |
| TomlRewrite.SubBySegments | scripts/ci/update_pyproject_name.py:15-19 | the substitution keeps every quote and every segment between quotes; only a non-empty segment closed by a quote whose opening quote follows a line-initial `KEY = ` becomes the new value |
| TomlRewrite.SubWithoutMatch | scripts/ci/update_pyproject_name.py:17-19 | with no match the text is unchanged |
| TomlRewrite.SpansLinesAnyTable | scripts/ci/update_pyproject_name.py:14-15 | a value spanning lines is replaced whole, and a key under any table matches |
| TomlRewrite.SubIdempotent | scripts/ci/update_pyproject_version.py:17-22 | rewriting rewritten text with the same quote-free and newline-free value changes nothing more |
| TomlRewrite.NewlineValueNotIdempotent | scripts/ci/update_pyproject_version.py:17-22 | a value holding a newline then `version = ` is not stable under a second rewrite |
| TomlRewrite.ReplaceAll | scripts/ci/update_pyproject_name.py:41-43 | `re.sub` of a fixed pattern, left to right without overlap; specified by `ReplaceAllAbsent`, `ReplaceAllFirst` and `ReplaceAllLength` |
| TomlRewrite.Occurs | scripts/ci/update_pyproject_name.py:41 | `re.search` of a fixed pattern; specified with `ReplaceAll` by `ReplaceAllAbsent` and `OccursCounted` |
| TomlRewrite.ReplaceAllAbsent | scripts/ci/update_pyproject_name.py:41-43 | the fixed-text substitution changes nothing when the text does not occur |
| TomlRewrite.ReplaceAllFirst | scripts/ci/update_pyproject_name.py:43 | text before the first occurrence is copied, the occurrence is replaced, and the substitution goes on after it |
| TomlRewrite.ReplaceAllLength | scripts/ci/update_lf_base_dependency.py:22 | each replacement changes the length by `len(replacement) - len(pattern)` |
| TomlRewrite.OccursCounted | scripts/ci/update_lf_base_dependency.py:20-22 | a text in which the pattern occurs has at least one replacement |
| CiCommon.StripV | scripts/ci/update_pyproject_version.py:47-48 | a leading `v` is removed and nothing else changes |
| CiCommon.StripSingle | scripts/ci/update_lf_base_dependency.py:46-47 | only one `v` is removed: `vv1` becomes `v1` |
| CiCommon.Then | scripts/ci/update_pyproject_name.py:55-56 | the second step runs on the first step's files unless the first raised |
| UpdatePyprojectName.UpdateName | scripts/ci/update_pyproject_name.py:8-22 | succeeds exactly when the file exists and the name pattern matches, and then writes the substituted text; otherwise raises and changes no file |
| UpdatePyprojectName.UpdateUvDep | scripts/ci/update_pyproject_name.py:25-45 | succeeds exactly when the file exists, the name is one of the two nightly names and its dependency line occurs, and then replaces every occurrence; otherwise raises and changes no file |
| UpdatePyprojectName.UvDepNames | scripts/ci/update_pyproject_name.py:31-38 | `ValueError` exactly for a name other than `langflow-nightly` and `langflow-base-nightly` |
| UpdatePyprojectName.Main | scripts/ci/update_pyproject_name.py:46-61 | the files keep their paths, and no file other than the base and root `pyproject.toml` changes; its error paths and dispatch are stated by the lemmas below |
| UpdatePyprojectName.MainArgumentCount | scripts/ci/update_pyproject_name.py:49-50 | anything but two arguments raises and changes no file |
| UpdatePyprojectName.MainBuildType | scripts/ci/update_pyproject_name.py:60-61 | a build type other than `base` or `main` raises `ValueError` and changes no file |
| UpdatePyprojectName.MainBase | scripts/ci/update_pyproject_name.py:54-56 | `base` renames the base project and rewrites the root dependency line |
| UpdatePyprojectName.MainMain | scripts/ci/update_pyproject_name.py:57-59 | `main` applies both rewrites to the root file, the name first |
| UpdatePyprojectName.BasePartialWrite | scripts/ci/update_pyproject_name.py:54-56 | with an unknown name, `base` has already rewritten the base file when it raises |
| UpdatePyprojectVersion.UpdateVersion | scripts/ci/update_pyproject_version.py:10-25 | succeeds exactly when the file exists and the version pattern matches, and then writes the substituted text; otherwise raises and changes no file |
| UpdatePyprojectVersion.Main | scripts/ci/update_pyproject_version.py:41-59 | the files keep their paths, and no file other than the base and root `pyproject.toml` changes; its error paths and dispatch are stated by the lemmas below |
| UpdatePyprojectVersion.MainArgumentCount | scripts/ci/update_pyproject_version.py:42-43 | anything but two arguments raises and changes no file |
| UpdatePyprojectVersion.VersionCheckedFirst | scripts/ci/update_pyproject_version.py:52-59 | a version PEP 440 rejects raises before any file is touched, whatever the build type |
| UpdatePyprojectVersion.MainBuildType | scripts/ci/update_pyproject_version.py:54-59 | a build type other than `base` or `main` raises `ValueError` and changes no file |
| UpdatePyprojectVersion.MainDispatch | scripts/ci/update_pyproject_version.py:54-57 | `base` rewrites the base file and `main` the root file |
| UpdatePyprojectVersion.MainStripsV | scripts/ci/update_pyproject_version.py:47-57 | a version given with a leading `v` is written without it |
| UpdatePyprojectVersion.UpdateTwice | scripts/ci/update_pyproject_version.py:17-25 | a second run with the same quote-free and newline-free version leaves the files as the first left them |
| UpdateLfBaseDependency.UpdateBaseDep | scripts/ci/update_lf_base_dependency.py:10-24 | succeeds exactly when the file exists and the path dependency occurs, and then replaces every occurrence by the pinned line; otherwise raises and changes no file |
| UpdateLfBaseDependency.Main | scripts/ci/update_lf_base_dependency.py:40-50 | the files keep their paths, and no file other than the root `pyproject.toml` changes; its error paths are stated by the lemmas below |
| UpdateLfBaseDependency.MainArgumentCount | scripts/ci/update_lf_base_dependency.py:41-42 | anything but one argument raises and changes no file |
| UpdateLfBaseDependency.VersionCheckedFirst | scripts/ci/update_lf_base_dependency.py:49-50 | a version PEP 440 rejects raises before the file is touched |
| UpdateLfBaseDependency.MainPins | scripts/ci/update_lf_base_dependency.py:46-50 | an accepted version, without its leading `v`, is pinned in the root file |
| UpdateLfBaseDependency.PinsSingleOccurrence | scripts/ci/update_lf_base_dependency.py:16-22 | with one occurrence of the path dependency, the text around it is kept and the occurrence becomes `langflow-base-nightly = "<version>"` |

## Left out

- `StructuredTool`, `create_input_schema` and the schema it builds are foreign. A tool is a record holding the list of inputs the schema generator would get.
- `TOOL_OUTPUT_NAME` is a parameter, because its value is not part of this model. The logger warning of `build_description` is a boolean in the description result.
- `component.set` is not part of this model. It is modelled as accepting keyword arguments that all name inputs and rejecting the whole call otherwise. Positional arguments are not modelled.
- Output methods are functions of the component's inputs. A method with side effects, and concurrent or re-entrant tool calls, are not modelled.
- `getattr` on the component is membership in the set of method names.
- Network calls are parameters: the SerpAPI search is a function from wrapper, query and parameters to a response or an exception message; the Tavily POST is a function from the payload to a body, an HTTP status error or another failure. URL, headers and the `httpx` client are not modelled, nor is the Tavily `build_tool` wrapper.
- SerpApi.LimitResultFields: organic results are maps from string to string. A non-string title or snippet is not modelled.
- TavilySearch.TavilyComponent.Search: the response body is a record of its `results`, `answer` and `images` parts. A body whose `results` is not a list is not modelled.
- Python's `str(e)` and the text of exceptions are strings given by the parameters.
- The database session, `get_user_by_id`, `flag_modified`, rollback and the clock are parameters or left out. The commit outcome is a parameter. The two clock readings of `update_user_last_login_at` are two parameters. After an integrity error the in-memory attributes keep the writes, because the ORM's expiry on rollback is not modelled.
- The update dictionary is a list of pairs with distinct keys, in dictionary order. `hasattr` is membership in the record's attributes.
- File reads, writes and `BASE_DIR` joining are a map from path to content. A missing path raises.
- The PEP 440 parse of `packaging.version` is a predicate parameter.
- `re.sub` escape processing of the replacement is excluded by a precondition: no backslash in the replacement.
- TomlRewrite.SubIdempotent: it needs the value to be newline-free as well as quote-free. `TomlRewrite.NewlineValueNotIdempotent` shows why.
- The exception messages carry the path relative to the repository root, not the absolute path the scripts print.
- The `logger.opt(exception=True).debug` calls (`SerpAPI.py:92`, `TavilyAISearch.py:159`, `crud.py:58`) are left out. An `organic_results` or `results` key that is present but `None` raises inside the `try` in the source; the model reads a present key as a list.
