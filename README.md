# LÖVE completion support for an IntelliJ plugin, modelled in Dafny

The plugin helps people write Lua for the LÖVE game framework. This project models its core:

- **Completion trigger** (`intellijloveframework/LoveCompletionProvider`). The text from the start of the line to the cursor is trimmed. It is then matched against `^\s*love\.(\w*)\.?$`. The match decides which registry lists go to the completion result set:
  - `love.` gets the callbacks and then the module names.
  - `love.<module>.` gets that module's functions.
  - Anything else gets nothing.
- **Symbol registry** (`LoveElements`, one copy in each Java package). It is a frozen map from namespace keys to ordered lists of entries, filled at class-load time. It has a defaulting lookup (`getElementsFor`) and a flattening of every list (`getAllElements`).
- **Shared constants** (`loveframeworksupport/LoveTypes`). These are the type texts, the namespace keys and the ordered list of module keys.
- **Documentation provider** (`LoveDocumentationProvider`). It computes three answers from the text of the element under the cursor: a navigation label, a wiki URL and an HTML snippet.
- **Keyword annotator** (`LoveKeywordHighlighter`). It marks an element whose whole text is `love.graphics` or `love.audio`.

Layout, one module per file:

| file | contents |
|---|---|
| `wrappers.dfy` | `Option` |
| `sequences.dfy` | distinctness of a sequence |
| `java_strings.dfy` | Java's `String.trim`, `startsWith` and `endsWith` |
| `love_types.dfy` | the `LoveTypes` constants |
| `registry.dfy` | the registry API both packages share, over any map |
| `support_elements.dfy` | the `loveframeworksupport` registry |
| `framework_elements.dfy` | the `intellijloveframework` registry |
| `elements_agreement.dfy` | how the two registries relate |
| `completion.dfy` | pattern matching, the dispatch, and the result set |
| `documentation.dfy` | the documentation provider |
| `highlighter.dfy` | the annotator |

Modelling choices:

- A registry entry is the record `(name, typeText, priority)`.
- `Lookup` is `getOrDefault(key, emptyList)`.
- Java's `HashMap` promises no iteration order. `getAllElements` therefore takes the order as an argument: any sequence that lists every key exactly once. Everything proved about it holds for every such order.
- The static initializer is a method that puts the lists into an empty map, one key at a time in the source's order. It is proved to build the registry's map.
- The completion provider's regular expression is modelled by a function that finds the longest leading run of `\s`, then `love.`, then the longest run of `\w`, then an optional `.`. The lemmas `MatchSound` and `MatchComplete` prove that this accepts exactly the strings `indent + "love." + word + ("." or "")`, where `indent` holds only `\s` characters and `word` only `\w` characters.
- The result set and the annotation holder are classes whose methods append to a recorded sequence. `AddCompletions` and `Annotate` are proved to append exactly what the specification functions `Completions` and `AnnotationsFor` prescribe.

## Model

| member | source | states |
|---|---|---|
| `JavaStrings.Trim` | src/main/java/com/pedrollanca/intellijloveframework/LoveCompletionProvider.java:62 | the result has no leading or trailing character <= U+0020, and it is the input with only such characters removed around it |
| `JavaStrings.TrimUnique` | src/main/java/com/pedrollanca/intellijloveframework/LoveCompletionProvider.java:62 | any trimmed core surrounded by removable padding is exactly what `trim` returns |
| `JavaStrings.TrimIgnoresPadding` | src/main/java/com/pedrollanca/intellijloveframework/LoveCompletionProvider.java:62 | adding characters <= U+0020 on either side does not change the trimmed text |
| `JavaStrings.TrimIdempotent` | src/main/java/com/pedrollanca/intellijloveframework/LoveCompletionProvider.java:62 | trimming twice is trimming once |
| `JavaStrings.StartsWith` | src/main/java/com/pedrollanca/loveframeworksupport/LoveDocumentationProvider.java:36 | `String.startsWith`: the prefix is no longer than the string and equals its first characters |
| `JavaStrings.EndsWith` | src/main/java/com/pedrollanca/intellijloveframework/LoveCompletionProvider.java:73 | `String.endsWith`: the suffix is no longer than the string and equals its last characters |
| `LoveTypes.TypeTextsDistinct` | src/main/java/com/pedrollanca/loveframeworksupport/LoveTypes.java:34-44 | the three type texts are non-empty and pairwise different |
| `LoveTypes.ModuleKeysShape` | src/main/java/com/pedrollanca/loveframeworksupport/LoveTypes.java:155-175 | `MODULE_KEYS` has nineteen distinct entries, exactly the module keys, and neither top-level key |
| `Registry.Lookup` | src/main/java/com/pedrollanca/loveframeworksupport/LoveElements.java:1616-1618 | a registered key yields its list; an unregistered key yields the empty list |
| `Registry.CreateElement` | src/main/java/com/pedrollanca/loveframeworksupport/LoveElements.java:1574-1581 | an entry with the given name and type text and priority 1000; `CreatedNames` and `CreatedTyped` state this for whole lists |
| `Registry.CreateElements` | src/main/java/com/pedrollanca/loveframeworksupport/LoveElements.java:65-69 | the `Arrays.asList` of `createElement` calls, one per name, in order; `CreatedNames` and `CreatedTyped` characterize it |
| `Registry.Flatten` | src/main/java/com/pedrollanca/loveframeworksupport/LoveElements.java:1590-1593 | the lists of the given keys concatenated in that order; `FlattenMembership`, `FlattenLength` and `FlattenPermutation` characterize it |
| `Registry.GetAllElements` | src/main/java/com/pedrollanca/loveframeworksupport/LoveElements.java:1589-1594 | `getAllElements` for one iteration order of the map; `AllElementsOrderIrrelevant`, `AllElementsMembership` and `AllElementsLength` characterize it |
| `Registry.CreatedNames` | src/main/java/com/pedrollanca/loveframeworksupport/LoveElements.java:1574-1581 | a list built from names keeps those names, in order |
| `Registry.CreatedTyped` | src/main/java/com/pedrollanca/loveframeworksupport/LoveElements.java:1574-1581 | every entry built by `createElement` carries the given type text and priority 1000 |
| `Registry.FlattenMembership` | src/main/java/com/pedrollanca/loveframeworksupport/LoveElements.java:1589-1594 | the flattening of some keys' lists holds an entry exactly when one of those lists holds it |
| `Registry.FlattenLength` | src/main/java/com/pedrollanca/loveframeworksupport/LoveElements.java:1589-1594 | the flattening is as long as its lists together |
| `Registry.FlattenPermutation` | src/main/java/com/pedrollanca/loveframeworksupport/LoveElements.java:1589-1594 | two key orders that are permutations of each other flatten to the same multiset of entries |
| `Registry.AllElementsOrderIrrelevant` | src/main/java/com/pedrollanca/loveframeworksupport/LoveElements.java:1589-1594 | `getAllElements` yields the same multiset of entries, and the same length, under every iteration order of the map |
| `Registry.AllElementsMembership` | src/main/java/com/pedrollanca/loveframeworksupport/LoveElements.java:1589-1594 | `getAllElements` holds an entry exactly when some registered list holds it |
| `Registry.AllElementsLength` | src/main/java/com/pedrollanca/loveframeworksupport/LoveElements.java:1589-1594 | `getAllElements` is as long as the sum of the registered lists' lengths |
| `SupportElements.InitLookupMap` | src/main/java/com/pedrollanca/loveframeworksupport/LoveElements.java:1530-1562 | the static initializer's twenty-one `put` calls into an empty map build exactly the registry's map |
| `SupportElements.GetElementsFor` | src/main/java/com/pedrollanca/loveframeworksupport/LoveElements.java:1616-1618 | `getOrDefault` on this registry: the list of a registered key, otherwise the empty list |
| `SupportElements.GetAllElements` | src/main/java/com/pedrollanca/loveframeworksupport/LoveElements.java:1589-1594 | `getAllElements` on this registry; `AllElementsContents` and `AllElementsSize` characterize it |
| `SupportElements.RegistrationOrderEnumerates` | src/main/java/com/pedrollanca/loveframeworksupport/LoveElements.java:1530-1561 | the keys the initializer registers are distinct and are exactly the map's keys, so registration order is one valid iteration order |
| `SupportElements.RegisteredLists` | src/main/java/com/pedrollanca/loveframeworksupport/LoveElements.java:1530-1561 | each of the twenty-one keys yields exactly the list the initializer stored under it |
| `SupportElements.AllElementsContents` | src/main/java/com/pedrollanca/loveframeworksupport/LoveElements.java:1589-1594 | `getAllElements` holds an entry exactly when `getElementsFor` of some registered key holds it |
| `SupportElements.ListSizes` | src/test/java/com/pedrollanca/loveframeworksupport/LoveElementsTest.java:30-60 | the list sizes the tests expect: 3 callbacks, 19 modules, 30 audio, 55 graphics, 41 window functions, and so on for every key |
| `SupportElements.AllElementsSize` | src/main/java/com/pedrollanca/loveframeworksupport/LoveElements.java:1589-1594 | `getAllElements` holds 329 entries, whatever the iteration order |
| `SupportElements.LookupMapKeys` | src/main/java/com/pedrollanca/loveframeworksupport/LoveElements.java:1530-1561 | the registered keys are `callbacks`, `modules` and every entry of `MODULE_KEYS` |
| `SupportElements.LookupMapSize` | src/main/java/com/pedrollanca/loveframeworksupport/LoveElements.java:1530-1561 | the map holds twenty-one keys |
| `SupportElements.RegistrationOrderKeys` | src/main/java/com/pedrollanca/loveframeworksupport/LoveElements.java:1534-1558 | the registered keys, as a set, are the two top-level keys and the module keys |
| `SupportElements.RegistrationOrderShape` | src/main/java/com/pedrollanca/loveframeworksupport/LoveElements.java:1534-1558 | the initializer registers `callbacks`, then `modules`, then the module keys in `MODULE_KEYS` order |
| `SupportElements.ModulesResolve` | src/main/java/com/pedrollanca/loveframeworksupport/LoveElements.java:132-152 | the module list's names are `MODULE_KEYS` in order, so every offered module name is itself a registered key |
| `SupportElements.TypeTextsFollowList` | src/main/java/com/pedrollanca/loveframeworksupport/LoveElements.java:65-1513 | callbacks carry type text `Callback`, modules `Module`, every module's functions `Function`, and every entry, under any key, has priority 1000 |
| `SupportElements.FunctionListsTyped` | src/main/java/com/pedrollanca/loveframeworksupport/LoveElements.java:248-1513 | every module key's list holds only `Function` entries |
| `SupportElements.ImageListsAgree` | src/main/java/com/pedrollanca/loveframeworksupport/LoveElements.java:1516-1527 | the unregistered `LOVE_IMAGE_FUNCTIONS_LIST` equals the registered image list of four entries, and `IMAGE_NEW_IMAGE` is offered under no image key, while `love.graphics.` offers an equal `newImage` entry |
| `SupportElements.GraphicsNamesRepeat` | src/main/java/com/pedrollanca/loveframeworksupport/LoveElements.java:598-633 | the 55 graphics entries hold the name `setScissor` at positions 15 and 26, so names within a list are not unique |
| `FrameworkElements.InitLookupMap` | src/main/java/com/pedrollanca/intellijloveframework/LoveElements.java:1619-1651 | the static initializer's `put` calls build exactly the registry's map |
| `FrameworkElements.GetElementsFor` | src/main/java/com/pedrollanca/intellijloveframework/LoveElements.java:1690-1692 | `getOrDefault` on this registry: the list of a registered key, otherwise the empty list |
| `FrameworkElements.GetAllElements` | src/main/java/com/pedrollanca/intellijloveframework/LoveElements.java:1663-1668 | `getAllElements` on this registry; `AllElementsContents` and `AllElementsSize` characterize it |
| `FrameworkElements.RegistrationOrderEnumerates` | src/main/java/com/pedrollanca/intellijloveframework/LoveElements.java:1619-1650 | the keys registered are distinct and are exactly the map's keys |
| `FrameworkElements.RegisteredLists` | src/main/java/com/pedrollanca/intellijloveframework/LoveElements.java:1619-1650 | each key yields exactly the list the initializer stored under it |
| `FrameworkElements.AllElementsContents` | src/main/java/com/pedrollanca/intellijloveframework/LoveElements.java:1663-1668 | `getAllElements` holds an entry exactly when some registered list holds it |
| `FrameworkElements.ListSizes` | src/main/java/com/pedrollanca/intellijloveframework/LoveElements.java:49-1598 | the size of every registered list, with 9 graphics functions |
| `FrameworkElements.AllElementsSize` | src/main/java/com/pedrollanca/intellijloveframework/LoveElements.java:1663-1668 | `getAllElements` holds 283 entries, whatever the iteration order |
| `FrameworkElements.LookupMapKeys` | src/main/java/com/pedrollanca/intellijloveframework/LoveElements.java:1619-1650 | the registered keys are `callbacks`, `modules` and every module key |
| `FrameworkElements.LookupMapSize` | src/main/java/com/pedrollanca/intellijloveframework/LoveElements.java:1619-1650 | the map holds twenty-one keys |
| `FrameworkElements.RegistrationOrderKeys` | src/main/java/com/pedrollanca/intellijloveframework/LoveElements.java:1623-1647 | the registered keys, as a set, are the two top-level keys and the module keys |
| `FrameworkElements.RegistrationOrderShape` | src/main/java/com/pedrollanca/intellijloveframework/LoveElements.java:1623-1647 | registration order is `callbacks`, `modules`, then the module keys in order |
| `FrameworkElements.ModulesResolve` | src/main/java/com/pedrollanca/intellijloveframework/LoveElements.java:118-138 | every module name offered after `love.` is itself a registered key |
| `FrameworkElements.TypeTextsFollowList` | src/main/java/com/pedrollanca/intellijloveframework/LoveElements.java:49-1598 | callbacks are `Callback`, modules `Module`, module functions `Function`, and every entry has priority 1000 |
| `FrameworkElements.FunctionListsTyped` | src/main/java/com/pedrollanca/intellijloveframework/LoveElements.java:238-1598 | every module key's list holds only `Function` entries |
| `FrameworkElements.CallbacksExact` | src/main/java/com/pedrollanca/intellijloveframework/LoveElements.java:49-53 | the callbacks are `load`, `update` and `draw`, in that order |
| `FrameworkElements.GraphicsExact` | src/main/java/com/pedrollanca/intellijloveframework/LoveElements.java:662-673 | the graphics list is the nine functions from `arc` to `setColor`, in order |
| `ElementsAgreement.SameKeys` | src/main/java/com/pedrollanca/intellijloveframework/LoveElements.java:1619-1650 | both packages register the same keys |
| `ElementsAgreement.ListsAgree` | src/main/java/com/pedrollanca/intellijloveframework/LoveElements.java:1690-1692 | for every key except `graphics`, both registries return the same list, entry for entry |
| `ElementsAgreement.RegistriesAgree` | src/main/java/com/pedrollanca/intellijloveframework/LoveElements.java:662-673 | the two registries share their keys and agree on every key but `graphics`, which holds 9 entries here and 55 in the other package |
| `Completion.SpaceRunEnd` | src/main/java/com/pedrollanca/intellijloveframework/LoveCompletionProvider.java:42 | the end of the longest run of `\s` characters from a position: everything before it is `\s`, the character at it is not |
| `Completion.WordRunEnd` | src/main/java/com/pedrollanca/intellijloveframework/LoveCompletionProvider.java:42 | the end of the longest run of `\w` characters from a position: everything before it is `\w`, the character at it is not |
| `Completion.MatchLoveLine` | src/main/java/com/pedrollanca/intellijloveframework/LoveCompletionProvider.java:64-67 | `matcher(lineText).matches()` and `group(1)`; `MatchSound` and `MatchComplete` prove it accepts exactly `\s* love. \w* .?` with that word and dot |
| `Completion.Completions` | src/main/java/com/pedrollanca/intellijloveframework/LoveCompletionProvider.java:66-76 | the batches the dispatch adds for a line prefix; characterized by `CompletionsOnLoveLine`, `CompletionsOnlyOnLoveLines`, `CompletionsIgnorePadding` and `CompletionsFromRegistry` |
| `Completion.MatchSound` | src/main/java/com/pedrollanca/intellijloveframework/LoveCompletionProvider.java:42 | whatever the matcher accepts is optional `\s` indentation, `love.`, a `\w` word and an optional dot, and the match reports that word and that dot |
| `Completion.MatchComplete` | src/main/java/com/pedrollanca/intellijloveframework/LoveCompletionProvider.java:42 | every string of that shape is accepted, with its own word and dot |
| `Completion.CompletionsFromRegistry` | src/main/java/com/pedrollanca/intellijloveframework/LoveCompletionProvider.java:66-76 | at most two batches are added, and each is the registry's answer for some key |
| `Completion.CompletionsIgnorePadding` | src/main/java/com/pedrollanca/intellijloveframework/LoveCompletionProvider.java:61-62 | characters at or below U+0020 (space and the C0 controls) around the line prefix never change what is offered; other whitespace such as U+00A0 is not removed |
| `Completion.NoCompletionAcrossWiderPadding` | src/main/java/com/pedrollanca/intellijloveframework/LoveCompletionProvider.java:42-66 | a no-break space (U+00A0) before `love.` or a DEL (U+007F) after it is not trimmed, and the line then offers nothing |
| `Completion.CompletionsOnLoveLine` | src/main/java/com/pedrollanca/intellijloveframework/LoveCompletionProvider.java:61-76 | a padded `love.` line gets callbacks then modules; `love.<word>.` gets the word's list; `love.<word>` gets nothing |
| `Completion.CompletionsOnlyOnLoveLines` | src/main/java/com/pedrollanca/intellijloveframework/LoveCompletionProvider.java:64-66 | something is offered only when the trimmed prefix is `love.`, a word and perhaps one dot |
| `Completion.EndsWithDotIsTrailingDot` | src/main/java/com/pedrollanca/intellijloveframework/LoveCompletionProvider.java:73 | on a matched line with a non-empty word, the code's `endsWith(".")` test coincides with the pattern's optional final dot |
| `Completion.NoCompletionForOtherLines` | src/test/java/com/pedrollanca/loveframeworksupport/LoveCompletionProviderTest.java:98-109 | `test.` offers nothing |
| `Completion.NoCompletionForEmptyLine` | src/test/java/com/pedrollanca/loveframeworksupport/LoveCompletionProviderTest.java:116-127 | an empty prefix offers nothing |
| `Completion.NoCompletionWithoutFirstDot` | src/main/java/com/pedrollanca/intellijloveframework/LoveCompletionProvider.java:42 | `love` without its dot offers nothing |
| `Completion.NoCompletionForDeeperLines` | src/main/java/com/pedrollanca/intellijloveframework/LoveCompletionProvider.java:42 | `love.audio.pl` lies outside the pattern and offers nothing |
| `Completion.NoCompletionWithoutDot` | src/main/java/com/pedrollanca/intellijloveframework/LoveCompletionProvider.java:73-75 | `love.audio` with no final dot offers nothing |
| `Completion.TopLevelCompletions` | src/main/java/com/pedrollanca/intellijloveframework/LoveCompletionProvider.java:69-71 | `love.` offers the callbacks list and then the modules list |
| `Completion.DoubleDotCompletions` | src/main/java/com/pedrollanca/intellijloveframework/LoveCompletionProvider.java:42 | `love..` reads as an empty word with the optional dot, so it offers the same two lists |
| `Completion.ModuleCompletions` | src/main/java/com/pedrollanca/intellijloveframework/LoveCompletionProvider.java:73-75 | `love.audio.` offers the `audio` list |
| `Completion.WindowCompletions` | src/main/java/com/pedrollanca/intellijloveframework/LoveCompletionProvider.java:73-75 | `love.window.` offers the `window` list |
| `Completion.PaddedModuleCompletions` | src/main/java/com/pedrollanca/intellijloveframework/LoveCompletionProvider.java:61-62 | a tab before and a newline after `love.window.` change nothing |
| `Completion.AnyModuleCompletions` | src/main/java/com/pedrollanca/intellijloveframework/LoveCompletionProvider.java:74 | `love.foo.` asks the registry for `foo`, whether or not it is known |
| `Completion.CompletionResultSet.AddAllElements` | src/main/java/com/pedrollanca/intellijloveframework/LoveCompletionProvider.java:70-74 | the result set records one more batch, the given list, after those it had |
| `Completion.AddCompletions` | src/main/java/com/pedrollanca/intellijloveframework/LoveCompletionProvider.java:52-81 | the batches added are exactly what `Completions` prescribes for the line prefix against this package's registry; an unreadable line adds nothing |
| `Completion.UnknownModuleExample` | src/main/java/com/pedrollanca/intellijloveframework/LoveElements.java:1690-1692 | against the real registry, `love.foo.` adds one empty batch |
| `Completion.TopLevelExample` | src/test/java/com/pedrollanca/loveframeworksupport/LoveCompletionProviderTest.java:79-91 | against the real registry, `love.` adds two batches: the three callbacks, then the nineteen modules |
| `Documentation.WikiUrl` | src/main/java/com/pedrollanca/loveframeworksupport/LoveDocumentationProvider.java:47 | the URL is the wiki base followed by the unchanged text |
| `Documentation.GetQuickNavigateInfo` | src/main/java/com/pedrollanca/loveframeworksupport/LoveDocumentationProvider.java:35-40 | an answer exists exactly when the text starts with `love`, and it is the label `LOVE Framework Module: ` followed by the text |
| `Documentation.GetUrlFor` | src/main/java/com/pedrollanca/loveframeworksupport/LoveDocumentationProvider.java:44-50 | under the same guard, one URL, which is the wiki base followed by the text |
| `Documentation.GenerateDoc` | src/main/java/com/pedrollanca/loveframeworksupport/LoveDocumentationProvider.java:54-62 | under the same guard, a page that starts with the bold label and the escaped text and ends the link with `</a>` |
| `Documentation.AnswersTogether` | src/main/java/com/pedrollanca/loveframeworksupport/LoveDocumentationProvider.java:36-55 | the three answers are all present or all absent, present exactly when the first four characters are `love` |
| `Documentation.AnswersDetermineText` | src/main/java/com/pedrollanca/loveframeworksupport/LoveDocumentationProvider.java:37-47 | the label and the URL list are each injective: equal answers come from equal texts |
| `Documentation.GenerateDocLinksTwice` | src/main/java/com/pedrollanca/loveframeworksupport/LoveDocumentationProvider.java:57-59 | the page holds the unescaped URL twice: as the quoted `href` target and as the link label just before `</a>` |
| `Documentation.LongerTextAnswered` | src/main/java/com/pedrollanca/loveframeworksupport/LoveDocumentationProvider.java:36 | `lovely` qualifies, with the exact label and URL |
| `Documentation.OtherTextUnanswered` | src/main/java/com/pedrollanca/loveframeworksupport/LoveDocumentationProvider.java:36 | the guard is case-sensitive and needs all four letters: `Love` and `lov` get no answer |
| `Highlighter.AnnotationHolder.CreateSilentAnnotation` | src/main/java/com/pedrollanca/loveframeworksupport/LoveKeywordHighlighter.java:45-47 | the holder records one annotation with the given severity and attributes, after those it had |
| `Highlighter.AnnotationsFor` | src/main/java/com/pedrollanca/loveframeworksupport/LoveKeywordHighlighter.java:40-49 | the annotations `annotate` creates; `AnnotatedExactlyKeywords` and `OnlyKeywordAnnotations` characterize them |
| `Highlighter.Annotate` | src/main/java/com/pedrollanca/loveframeworksupport/LoveKeywordHighlighter.java:38-50 | the loop over the keywords, which stops at the first match, adds exactly the annotations `AnnotationsFor` prescribes and nothing else |
| `Highlighter.AnnotatedExactlyKeywords` | src/main/java/com/pedrollanca/loveframeworksupport/LoveKeywordHighlighter.java:40-49 | at most one annotation per element, and one exactly when the text equals `love.graphics` or `love.audio` |
| `Highlighter.OnlyKeywordAnnotations` | src/main/java/com/pedrollanca/loveframeworksupport/LoveKeywordHighlighter.java:34-35 | every annotation created has `Information` severity and the `LOVE_KEYWORD` attributes |
| `Highlighter.NearMissesUnannotated` | src/main/java/com/pedrollanca/loveframeworksupport/LoveKeywordHighlighter.java:44 | the match is exact: `love.graphics.draw`, `love`, `love.Audio` and ` love.audio` get nothing |

## Where the code may surprise

- **Names within a list are not unique.** In the `loveframeworksupport` graphics list, the constant `GRAPHICS_SET_SCISSOR_BOX` is created with the name `setScissor`, which is also the name of `GRAPHICS_SET_SCISSOR` (LoveElements.java:598-633), so the name is listed twice. The model follows the code. `SupportElements.GraphicsNamesRepeat` proves the repetition.
- **One image list and one image entry are unused.** `LOVE_IMAGE_FUNCTIONS_LIST` and `IMAGE_NEW_IMAGE` (LoveElements.java:1516-1527) belong to no key. The model keeps them as constants, and `SupportElements.ImageListsAgree` proves that the list equals the registered one and that the entry is offered under no image key. An equal `newImage` entry, `GRAPHICS_NEW_IMAGE` (LoveElements.java:560-561), is offered under `graphics`, which the same lemma also proves.
- **The `intellijloveframework` initializer names undefined keys.** Its own `LoveTypes` defines only `CALLBACKS_KEY`, `MODULES_KEY` and `AUDIO_KEY`. Its static initializer nevertheless names eighteen further `LoveTypes.*_KEY` constants. The model reads them as the `loveframeworksupport` constants of the same names, whose values are the lower-case module names.

## Left out

- Editor plumbing: the document, the caret offset and the line-start computation. The line prefix up to the cursor is a parameter. An exception while reading it is `None`, which the provider turns into "nothing added".
- The exception's stack trace print: it is output only.
- Java regular expressions in general: only the one fixed pattern is modelled.
- Text is modelled as a sequence of Dafny characters, which are Unicode scalar values, not the UTF-16 code units of a Java string. Classification agrees, because every character `trim` and the pattern test for is ASCII and no result depends on the length of the text. A supplementary character is one character in the model and two units in Java, and a lone surrogate cannot be written in the model at all.
- `StringUtil.escapeXmlEntities` is a host call. `GenerateDoc` takes it as a function parameter and states only where its result appears.
- The PSI element is reduced to its text.
- `LookupElementBuilder` styling (bold, icon) and `PrioritizedLookupElement` wrapping: an entry keeps only its name, its type text and its priority.
- Icons, `PluginUtils`, both completion contributors and the host's extension registration: none of them affects which elements are offered.
- The `intellijloveframework` `LoveTypes` is not part of this model beyond the key values it shares.
- `HashMap` iteration order is not modelled. `getAllElements` is stated for every order that lists each key once.
- The text-attributes fallback `DefaultLanguageHighlighterColors.KEYWORD` is host colour configuration. An annotation records only the key's external name.
- `LoveTypes`' private constructor that throws: it is never reached by the core.
