# symfony-extras compiler passes, modelled in Dafny

This project models the build-time dependency-injection passes of
`zlikavac32/symfony-extras`. Each pass reads a service-definition graph,
interprets the scalar properties of its tags, validates them, and rewrites
the graph in place. Depending on the pass, it rewrites argument slots, adds
method calls and aliases, or defines new services. The model covers:

- the shared helpers:
  - tag reconstruction from the flat `i<group>_<property>` encoding;
  - the tag-to-services index;
  - the get-or-create store of processed items;
  - the four assertions;
- the decorator pass: decorating-tag templates, per-consumer tag references, and synthesized `<id>.<tag>` children;
- the service linker: direct and indirect (resolver-tag) linking from provider tables, parameters or named services;
- the dynamic composite pass: members in priority order, injected through the constructor or one method call each;
- the event dispatcher pass: dispatcher validation, globally unique listener and subscriber tag names, registration guarded by a processed set;
- the console runnable pass: command or mapper, the cached mapper instance, the synthesized `<id>.command`;
- the map-backed runnable-to-name mapper.

## How the model is built

- **Graph.** The container is the class `Container.Graph`. Its fields are:
  - the definitions (abstract flag, class, argument slots keyed by `int | string`, method calls, tags as an ordered map from name to a list of property maps, parent, decorated service);
  - the declaration order of the ids;
  - the aliases and the parameters;
  - a keyed store. The store holds the persistent processed sets and the decorator registries, which several runs share.

  `Graph.State()` is the value (`GraphState`) of all those fields.
- **Pass classes.** Each pass is a class whose fields are the ones the source keeps:
  - `tagToServicesMap` in the decorator pass;
  - `providers` in the linker;
  - `mappers` in the console pass.
- **How the methods are proved.** Every `process` and every private step is a method with loops. Each method is proved against a pure function of the old state that says what the step does. The properties the source promises are then lemmas about those functions: the error conditions, what changes, what stays, and what a second run does.
- **Errors.** A thrown `LogicException` is modelled as an `Err`/`Fail` value that carries the error and its arguments.
- **Foreign collaborators** are parameters:
  - the `sha1` used for argument aliases is a function `hash`;
  - composite argument resolvers are pure functions from the composite id and the member's tag properties to the arguments they add; `finish` is recorded as an entry in a log;
  - mapper classes form a registry from class name to a mapper function or to "does not implement the interface";
  - `RegisterListenersPass` is recorded as an entry in a registration log, next to the processed-set update.

## Model

| member | source | states |
|---|---|---|
| Values.TypeOf | src/asserts.php:39 | The PHP type name of a scalar: NULL, boolean, integer or string, each for exactly its own kind of value |
| Values.GetOr | src/DependencyInjection/Compiler/DynamicCompositePass.php:53-56 | `$props[$key] ?? $default`: the property when it is present and not null, the default otherwise |
| Values.ToArgKey | src/DependencyInjection/Compiler/DynamicCompositePass.php:55 | An int property designates a positional slot and a string property a named slot |
| Asserts.AssertOnlyOneTagPerService | src/asserts.php:11-18 | Passes exactly when there is one occurrence (zero fails too), otherwise the multiple-tags error for that service and tag |
| Asserts.AssertDefinitionIsAbstract | src/asserts.php:20-27 | Passes exactly when the definition is abstract, otherwise "expected abstract" for that service |
| Asserts.AssertDefinitionIsNotAbstract | src/asserts.php:29-35 | Passes exactly when the definition is not abstract, otherwise "expected non-abstract" for that service |
| Asserts.AbstractAssertionsComplementary | src/asserts.php:20-35 | Exactly one of the two abstractness assertions passes on any definition |
| Asserts.AssertValueIsOfType | src/asserts.php:37-46 | Passes exactly when the value's type name is in the allowed set, otherwise the unexpected-type error naming the property, the allowed set and the service |
| Asserts.MissingPropertyNeedsNull | src/asserts.php:37-46 | An absent property read with `?? null` passes exactly when NULL is an allowed type |
| Digits.NatToDigitsValue | src/functions.php:29 | The decimal digits printed for a number denote that number |
| Digits.CanonicalRoundTrip | src/functions.php:29 | A digit string without leading zeros, read as a number and printed again, gives the same string back |
| Digits.CanonicalInjective | src/functions.php:29 | Distinct digit strings without leading zeros denote distinct group numbers |
| Functions.DigitRun | src/functions.php:29 | The `\d+` part of a key: the longest run of digits at the front |
| Functions.FirstLine | src/functions.php:29 | The `.*` part of a key: what follows the underscore up to, not including, its first newline, since the pattern has no `s` modifier |
| Functions.FirstLineOfLine | src/functions.php:29 | A property without a newline, alone or followed by a newline and more, is matched whole |
| Functions.FlatKeyNameParses | src/functions.php:29-33 | A key written as `i<group>_<property>` matches the pattern and yields that group and the property up to its first newline; a property without a newline comes back whole |
| Functions.ParsedKeyIsFlatKeyName | src/functions.php:29-33 | Every key the pattern matches spells what it yields: it is `i<group>_<property>` alone, or followed by a newline and anything after it, and the property holds no newline |
| Functions.SpellsFirstLine | src/functions.php:29-33 | A key `i<g>_<rest>` spells group g and the first line of `rest` |
| Functions.SpelledKeyParses | src/functions.php:29-33 | Every key that spells group g and property p matches the pattern and yields exactly g and p |
| Functions.FlatKeyNameInjective | src/functions.php:29-33 | Different (group, property) pairs are written as different keys |
| Functions.PropertyNamesAreKeys | src/functions.php:33-39 | A property belongs to group g exactly when some key spells it; when no key holds a newline, exactly when the key `i<g>_<property>` is present |
| Functions.GroupsAreNonEmpty | src/functions.php:35-39 | A group exists exactly when some key of that group is present, so no group is empty |
| Functions.GroupTableIs | src/functions.php:28-40 | A table that has a property exactly where some key reads as it, holds there the value of the last such key in key order, and has no empty group, is the group table |
| Functions.GroupTableKeys | src/functions.php:35-37 | Such a table has exactly the groups that occur in matched keys |
| Functions.GroupOfIs | src/functions.php:33-39 | A property map that has a property exactly where some key reads as it, holding the last such key's value, is that group |
| Functions.DenotingWithoutNewlines | src/functions.php:29-33 | When no key holds a newline, `i<g>_<p>` is the one key read as property p of group g if it is present, and no key is otherwise |
| Functions.DenotedWithoutNewlines | src/functions.php:29-33 | When no key holds a newline, property p of group g is read exactly when `i<g>_<p>` is a key |
| Functions.LatestWithoutNewlines | src/functions.php:29-39 | When no key holds a newline, the value stored for property p of group g is that of the key `i<g>_<p>` |
| Functions.GroupTableWithoutNewlines | src/functions.php:28-40 | When no key holds a newline, a table holding exactly each key `i<g>_<p>`'s value under group g and property p, with no empty group, is the group table |
| Functions.GroupFlatKeys | src/functions.php:28-40 | The first loop builds exactly the group table: each matched key's value lands under its group and property, other keys are skipped, and of two keys read as the same property the later one in key order wins |
| Functions.Put | src/functions.php:35-39 | Storing one value: that property of that group takes it, the group is created when missing, and every other property keeps its value |
| Functions.VisitedKeyIsLatest | src/functions.php:39 | The key just visited is the last visited key read as its group and property, so its value is the one that stands |
| Functions.GroupParsedKey | src/functions.php:33-39 | Visiting the next matched key keeps the table exact for the keys visited so far |
| Functions.GroupUnparsedKey | src/functions.php:29-31 | Visiting a key the pattern does not match keeps the table exact for the keys visited so far |
| Functions.Ascending | src/functions.php:44 | `ksort`: the group numbers, each once, in strictly ascending order |
| Functions.IncreasingUnique | src/functions.php:44 | Any two ascending enumerations of the same group numbers are equal, so the emission order does not depend on the input key order |
| Functions.SortGroups | src/functions.php:44 | The sorting loop yields exactly the ascending order of the group numbers |
| Functions.EmitGroupsOk | src/functions.php:46-60 | Emission succeeds exactly when every group has a string `name` |
| Functions.EmitGroupsCollects | src/functions.php:51-59 | After emission each tag holds, after what it held before, the groups that name it in emission order, with `name` removed and all other properties kept |
| Functions.EmitGroupsStep | src/functions.php:46-59 | A successful emission found a string name on its first group, added that group under it, and went on with the rest |
| Functions.NamedOccurrencesStep | src/functions.php:51-59 | The occurrences of tag n are the first group's, when it is named n, followed by those of the later groups |
| Functions.EmitGroupsHas | src/functions.php:55-59 | After emission a tag exists exactly when it existed before or some group names it |
| Functions.EmitGroupsErr | src/functions.php:46-49 | Emission fails at the first group in order that lacks a string name, with the error that says why |
| Functions.ReconstructTagsFromFlat | src/functions.php:24-63 | `reconstructTags` as written, with its three loops, computes exactly the reference reconstruction |
| Functions.ReconstructTagsOk | src/functions.php:46-49 | Reconstruction succeeds exactly when every group has a string name |
| Functions.ReconstructTagsCollects | src/functions.php:42-62 | On success, tag n holds every group named n in ascending group order without its name (a name-only group gives `[]`), and exists exactly when some group names it |
| Functions.ReconstructTagsErr | src/functions.php:44-49 | A failure names the lowest-numbered group whose name is missing ("No tag name provided for group N") or not a string |
| Functions.EmitAscendingErr | src/functions.php:44-49 | Emitting any group table in ascending order fails, when it fails, at its lowest-numbered badly named group with the error that says why |
| Functions.FirstBadGroupIsLowest | src/functions.php:44-49 | In ascending order, the first badly named group is the lowest-numbered one |
| Functions.ReconstructTagsIgnoresUnmatchedKey | src/functions.php:28-31 | Adding or changing a key that does not match `^i<digits>_` leaves the result unchanged |
| Functions.ReconstructTagsExample | src/functions.php:13-18 | The documented example `{i0_name: foo, i1_name: bar, i1_val: 32}` gives `[foo: [{}], bar: [{val: 32}]]` |
| Functions.FlatKeyNameOneLine | src/functions.php:12-15 | A key written for a property without a newline holds no newline |
| Functions.FlatKeyNamesDistinct | src/functions.php:12-15 | The linear form writes different groups or properties under different keys |
| Functions.FlatGroup | src/functions.php:12-15 | One tag occurrence in linear form as group g: exactly the keys `i<g>_<p>` for its properties p, each holding that property's value, and no newline in a key when the properties have none |
| Functions.FlattenFromKey | src/functions.php:12-18 | The linear form of a list of occurrences has the key `i<j>_<p>` exactly when occurrence j has property p (its tag name counting as `name`) |
| Functions.FlattenFromValue | src/functions.php:12-18 | Under `i<j>_<p>` the linear form holds property p of occurrence j |
| Functions.FlattenFromOneLine | src/functions.php:12-18 | Occurrences whose property names hold no newline are written under keys without one |
| Functions.FlattenWritesGroups | src/functions.php:12-18 | The linear form holds group j's properties under the keys `i<j>_<p>` and nothing else, with no empty group |
| Functions.FlattenGroupTable | src/functions.php:12-40 | Read back, the linear form of a list of occurrences has group j holding exactly occurrence j's properties and its tag name |
| Functions.Range | src/functions.php:44 | The group numbers lo to hi - 1 in strictly ascending order, which is what `ksort` gives for them |
| Functions.EmitRange | src/functions.php:46-60 | Emitting the groups of the linear form from j on adds occurrences j, j + 1, … to their tags in order |
| Functions.FlattenRoundTrip | src/functions.php:12-63 | Round trip: any list of tag occurrences written in linear form is reconstructed as the tags that adding the occurrences in order makes, whenever no property name holds a newline |
| Functions.ServicesDeclaring | src/functions.php:91-99 | The services, in declaration order, that declare tag t; exactly those that are defined and declare it |
| Functions.ServicesDeclaringDistinct | src/functions.php:97-98 | Each service is listed once under a tag, as in a `Set` |
| Functions.AddToEntries | src/functions.php:92-99 | The inner loop adds the service to the entry of every tag it declares, creating missing entries, and to no other entry |
| Functions.IndexesOneMore | src/functions.php:91-100 | One more pass of the outer loop keeps the index exact for one more service |
| Functions.TagIndexIs | src/functions.php:88-103 | An index that lists exactly the declaring services of every tag in use, with no empty entry, is the tag index |
| Functions.BuildMapOfTagsAndServiceIds | src/functions.php:88-103 | The loops compute exactly the tag index of the graph |
| Functions.TagIndexContents | src/functions.php:88-103 | s is listed under t exactly when s is defined and declares t; the keys are exactly the tag names in use; each entry is in declaration order without repeats |
| Functions.ProcessedKeySuffixes | src/functions.php:71 | Store keys `<class>.<tag>.<suffix>` that differ in the suffix differ |
| Functions.ProcessedItemsSetFromContainer | src/functions.php:65-81 | Returns the key and the set stored under it; on first use an empty set is stored there, otherwise nothing changes |
| Functions.EnsureSetIdempotent | src/functions.php:73-77 | A second get-or-create changes nothing, and an existing set is returned as it was |
| Container.Tags.Add | src/DependencyInjection/Compiler/DecoratorPass.php:317 | `addTag`: one more occurrence at the end of that tag, every other tag unchanged, and the tags stay a well-formed ordered map |
| Container.Tags.Remove | src/DependencyInjection/Compiler/DecoratorPass.php:306 | `unset($tags[$name])`: that tag is gone and every other tag is unchanged |
| Container.Registry.Put | src/DependencyInjection/Compiler/DecoratorPass.php:130-131 | `Map::put`: the entry is set, an existing name keeps its place, and the registry stays a well-formed ordered map |
| Container.GraphState.Find | src/DependencyInjection/Compiler/DecoratorPass.php:115 | `findDefinition`: the definition of a known id; an unknown id fails with service-not-found |
| Container.GraphState.SetDefinition | src/DependencyInjection/Compiler/DecoratorPass.php:321 | `setDefinition`: the id holds the new definition, every other definition is kept, an alias of that id is removed, and parameters and store are unchanged |
| Container.GraphState.SetAlias | src/DependencyInjection/Compiler/DecoratorPass.php:287 | `setAlias`: the alias points to its target, a definition of that id is removed, every other definition is kept, and parameters and store are unchanged |
| Container.GraphState.SetArgument | src/DependencyInjection/Compiler/DecoratorPass.php:288 | `setArgument`: that slot of that definition takes the new value, its other slots keep theirs, nothing else in the graph changes, and the graph stays well formed |
| Container.GraphState.AddMethodCall | src/DependencyInjection/Compiler/DynamicCompositePass.php:182-185 | `addMethodCall`: the call is appended after that definition's earlier calls, nothing else in the graph changes, and the graph stays well formed |
| Container.GraphState.EnsureSet | src/functions.php:73-77 | Get-or-create of a processed set: an existing set is kept as is, a missing one is created empty, nothing else changes |
| Container.GraphState.MarkProcessed | src/DependencyInjection/Compiler/DecoratorPass.php:254 | `Set::add`: the item joins the set under that key; nothing else changes |
| Container.TaggedIn | src/DependencyInjection/Compiler/DynamicCompositePass.php:45 | `findTaggedServiceIds`: only defined services that declare the tag are listed, each with its own occurrences |
| Container.TaggedInComplete | src/DependencyInjection/Compiler/DynamicCompositePass.php:45 | Every defined service that declares the tag is listed, with its occurrences |
| Container.TaggedInSameTags | src/DependencyInjection/Compiler/ServiceLinkerPass.php:65 | The tagged services depend only on the ids and the tags, so rewriting slots does not change them |
| DecoratorPass.StoreKeysDiffer | src/DependencyInjection/Compiler/DecoratorPass.php:70-78 | The registry key and the processed-set key of one pass tag are different store entries |
| DecoratorPass.IdentityIgnoresPriorityAndRest | src/DependencyInjection/Compiler/DecoratorPass.php:413-424 | Two tag references are the same exactly when tag name, service and argument agree; priority and residual properties are ignored |
| DecoratorPass.RegisterTemplate | src/DependencyInjection/Compiler/DecoratorPass.php:118-144 | Registering one template occurrence keeps the registry well formed |
| DecoratorPass.RegisterTemplateSpec | src/DependencyInjection/Compiler/DecoratorPass.php:118-144 | Succeeds exactly when the template is abstract, `tag` is a string and `argument` (default 0) an int or string, and the tag is free or already the same template's. Earlier entries are kept and the tag then belongs to that template. A second template fails with "already provided" naming both services |
| DecoratorPass.OwnsExtends | src/DependencyInjection/Compiler/DecoratorPass.php:130-143 | A template's ownership of its tags survives later registrations, which never re-point an entry |
| DecoratorPass.RegisterTemplatesOfExtends | src/DependencyInjection/Compiler/DecoratorPass.php:118-144 | Registering one template's occurrences only adds entries, keeps the registry well formed, and leaves each of its tags owned by it |
| DecoratorPass.RegisterTemplatesExtends | src/DependencyInjection/Compiler/DecoratorPass.php:112-146 | Registering all templates only adds entries and keeps the registry well formed |
| DecoratorPass.RegisterTemplatesOwners | src/DependencyInjection/Compiler/DecoratorPass.php:112-146 | After registration every template occurrence is valid and its decorating tag belongs to that template: a decorating tag has at most one template |
| DecoratorPass.Merge | src/DependencyInjection/Compiler/DecoratorPass.php:159 | `Set::merge`: the union of both, without repeats |
| DecoratorPass.Consumers | src/DependencyInjection/Compiler/DecoratorPass.php:155-161 | The consumers to process are listed without repeats |
| DecoratorPass.ConsumersMembers | src/DependencyInjection/Compiler/DecoratorPass.php:155-161 | A service is a consumer exactly when it is listed under some registered decorating tag in use |
| DecoratorPass.ReferenceOf | src/DependencyInjection/Compiler/DecoratorPass.php:192-209 | A reference carries its tag and service, has an argument exactly when `argument` is set, and keeps every other property except `priority` |
| DecoratorPass.AcceptableOccurrencesResolve | src/DependencyInjection/Compiler/DecoratorPass.php:188-223 | Acceptable occurrences yield one reference per occurrence, in order |
| DecoratorPass.ResolvedOccurrencesAcceptable | src/DependencyInjection/Compiler/DecoratorPass.php:192-220 | Accepted occurrences passed their type checks and have new, pairwise different identities |
| DecoratorPass.OccurrenceReferencesSpec | src/DependencyInjection/Compiler/DecoratorPass.php:188-223 | One tag's occurrences are accepted exactly when each has an int `priority` (default 0) and an int or string `argument` if set, and no two share an argument (or both lack one). They then give one reference per occurrence, in order |
| DecoratorPass.OccurrenceReferencesDuplicate | src/DependencyInjection/Compiler/DecoratorPass.php:211-219 | When every occurrence passes its type checks, a failure is "Only one tag T allowed on service S[ and argument A]" for the first occurrence whose argument (or lack of one) an earlier occurrence already had |
| DecoratorPass.DuplicateShift | src/DependencyInjection/Compiler/DecoratorPass.php:211-219 | The first duplicate among the later occurrences, after a first occurrence with a new identity, is the first duplicate of the whole list |
| DecoratorPass.OccurrenceReferencesDistinct | src/DependencyInjection/Compiler/DecoratorPass.php:211-219 | The references of one tag on one service carry that tag and service and have distinct identities |
| DecoratorPass.ReferencesFromServiceSound | src/DependencyInjection/Compiler/DecoratorPass.php:174-227 | A consumer's references are distinct and name only registered decorating tags that the consumer declares |
| DecoratorPass.Unprocessed | src/DependencyInjection/Compiler/DecoratorPass.php:228-230 | Keeps exactly the references not already in the processed set |
| DecoratorPass.DistinctIdentitiesUnprocessed | src/DependencyInjection/Compiler/DecoratorPass.php:228-230 | Filtering out processed references keeps the identities distinct |
| DecoratorPass.ResolvedReferencesSound | src/DependencyInjection/Compiler/DecoratorPass.php:153-231 | Only new references are resolved; each names a registered tag its consumer declares, and no two are the same |
| DecoratorPass.ResolvedReferencesStep | src/DependencyInjection/Compiler/DecoratorPass.php:165-166 | The consumers are resolved one by one, in order; a consumer's error ends the resolution with that error |
| DecoratorPass.ResolvedRegistered | src/DependencyInjection/Compiler/DecoratorPass.php:183-186 | Resolved references name only registered decorating tags |
| DecoratorPass.ResolveAlias | src/DependencyInjection/Compiler/DecoratorPass.php:259-291 | The alias `<service>.<hash(argument)>` is reused if it exists. Otherwise the slot must hold a reference: the alias is created pointing to its target, a definition of the alias id is dropped, and the slot is rewritten to the alias, with nothing else changed. Failure gives the "must be explicitly defined to reference" error |
| DecoratorPass.ResolveAliasIdempotent | src/DependencyInjection/Compiler/DecoratorPass.php:263-265 | Resolving the same reference again returns the same alias and changes nothing |
| DecoratorPass.AddOccurrences | src/DependencyInjection/Compiler/DecoratorPass.php:316-318 | The occurrences are appended to that tag in order; other tags are unchanged |
| DecoratorPass.AddAllGet | src/DependencyInjection/Compiler/DecoratorPass.php:315-319 | Each reconstructed tag's occurrences come after the ones the definition already had |
| DecoratorPass.AddTagOccurrences | src/DependencyInjection/Compiler/DecoratorPass.php:316-318 | The inner `addTag` loop computes exactly the appended occurrences |
| DecoratorPass.AddTags | src/DependencyInjection/Compiler/DecoratorPass.php:315-319 | The outer `addTag` loop adds every reconstructed tag in its order |
| DecoratorPass.Decorate | src/DependencyInjection/Compiler/DecoratorPass.php:293-322 | Succeeds exactly when the template exists and the residual properties reconstruct. It then defines `<decorated>.<tag>` and nothing else; otherwise it gives service-not-found or the reconstruction error |
| DecoratorPass.DecoratingDefinitionShape | src/DependencyInjection/Compiler/DecoratorPass.php:299-321 | The new definition is a non-abstract child of the template whose slot references `<id>.inner`. It decorates the service at the reference's priority and carries the template's tags minus the pass tag, then the reconstructed tags. Every other definition and the store are unchanged, and an alias of the new id is removed |
| DecoratorPass.DecorateReference | src/DependencyInjection/Compiler/DecoratorPass.php:241-252 | Decorating one reference leaves the store as it was |
| DecoratorPass.DecorateReferenceKeepsValid | src/DependencyInjection/Compiler/DecoratorPass.php:241-252 | Decorating one reference keeps the graph well formed |
| DecoratorPass.DecorateAllStep | src/DependencyInjection/Compiler/DecoratorPass.php:241-255 | The references are decorated one by one: a failure of one is the failure of the whole loop, and after a success the loop continues from the decorated graph with that reference remembered |
| DecoratorPass.DecoratorPass.DecorateTagReference | src/DependencyInjection/Compiler/DecoratorPass.php:241-252 | One reference is decorated, through its argument alias when it has an argument, as the one-reference specification says |
| DecoratorPass.DecorateAllRemembers | src/DependencyInjection/Compiler/DecoratorPass.php:233-257 | After decorating, the processed set holds its old items plus every decorated reference; the registries and other sets are untouched |
| DecoratorPass.DecorateAllKeepsValid | src/DependencyInjection/Compiler/DecoratorPass.php:233-257 | Decorating keeps every definition's tags a proper ordered map |
| DecoratorPass.Prepare | src/DependencyInjection/Compiler/DecoratorPass.php:70-88 | After setup the processed set exists and every pending reference names a registered tag |
| DecoratorPass.PrepareSound | src/DependencyInjection/Compiler/DecoratorPass.php:70-88 | Setup keeps the definitions, gets or creates the processed set, and yields only references outside it, no two the same |
| DecoratorPass.NothingToDoWithoutTemplates | src/DependencyInjection/Compiler/DecoratorPass.php:64-66 | Without a service carrying the pass tag, the run succeeds and changes nothing, not even the store |
| DecoratorPass.PendingAreUnprocessed | src/DependencyInjection/Compiler/DecoratorPass.php:211-230 | What a run decorates is never already processed, and never twice |
| DecoratorPass.RunRemembersDecorated | src/DependencyInjection/Compiler/DecoratorPass.php:57-96 | A successful run leaves a well-formed graph whose processed set holds its old items and every reference the run decorated |
| DecoratorPass.SecondRunSkipsDecorated | src/DependencyInjection/Compiler/DecoratorPass.php:228-254 | A second run never decorates a reference the first run decorated |
| DecoratorPass.DecoratorPass.Process | src/DependencyInjection/Compiler/DecoratorPass.php:57-96 | The graph ends in the state the run specification gives, or the run fails with its error; the index field is cleared either way |
| DecoratorPass.DecoratorPass.BuildMapOfDecorators | src/DependencyInjection/Compiler/DecoratorPass.php:112-146 | The loops register exactly what the registration specification gives |
| DecoratorPass.DecoratorPass.ServicesToProcess | src/DependencyInjection/Compiler/DecoratorPass.php:155-161 | The merge loop computes exactly the consumers |
| DecoratorPass.DecoratorPass.ResolveTagsToProcess | src/DependencyInjection/Compiler/DecoratorPass.php:153-172 | The loop yields exactly the new references of every consumer, consumer by consumer |
| DecoratorPass.DecoratorPass.DecorateServices | src/DependencyInjection/Compiler/DecoratorPass.php:233-257 | Each reference is decorated in turn and then marked processed, as the decoration specification says |
| DecoratorPass.DecoratorPass.ResolveAliasForServiceArgument | src/DependencyInjection/Compiler/DecoratorPass.php:259-291 | Returns the alias and leaves the graph as the alias specification says, or fails with its error |
| DecoratorPass.DecoratorPass.DecorateServiceForTag | src/DependencyInjection/Compiler/DecoratorPass.php:293-322 | Defines the decorating child as the decoration specification says, or fails with its error |
| DynamicCompositePass.ConfigSpec | src/DependencyInjection/Compiler/DynamicCompositePass.php:53-63 | The configuration is accepted exactly when `tag` is a string, `method` a string (default `__construct`), `argument` an int or string (default 0) and `prioritized` a bool (default true). Otherwise the first of them, in that order, that has the wrong type gives its unexpected-type error |
| DynamicCompositePass.Enqueue | src/DependencyInjection/Compiler/DynamicCompositePass.php:92 | A push lengthens the queue by one |
| DynamicCompositePass.EnqueueMultiset | src/DependencyInjection/Compiler/DynamicCompositePass.php:92 | A push adds exactly the new member |
| DynamicCompositePass.EnqueueMembers | src/DependencyInjection/Compiler/DynamicCompositePass.php:92 | After a push the queue holds the old members and the new one |
| DynamicCompositePass.EnqueueOrdered | src/DependencyInjection/Compiler/DynamicCompositePass.php:92 | Pushing a later member keeps the queue ordered by priority, then push order |
| DynamicCompositePass.EnqueueLast | src/DependencyInjection/Compiler/DynamicCompositePass.php:92 | A member with a priority no lower than any queued one goes last |
| DynamicCompositePass.QueuedMultiset | src/DependencyInjection/Compiler/DynamicCompositePass.php:80-96 | Pushing a list adds exactly its members |
| DynamicCompositePass.QueuedOrdered | src/DependencyInjection/Compiler/DynamicCompositePass.php:80-96 | Pushing members in stamp order keeps the queue ordered |
| DynamicCompositePass.QueuedAppends | src/DependencyInjection/Compiler/DynamicCompositePass.php:80-96 | With equal priorities, pushing appends: ties stay in push order |
| DynamicCompositePass.PriorityOf | src/DependencyInjection/Compiler/DynamicCompositePass.php:84-90 | Unprioritized members get priority 0 without reading `priority`; prioritized ones need an int `priority` (default 0), otherwise the unexpected-type error |
| DynamicCompositePass.OccurrencePushes | src/DependencyInjection/Compiler/DynamicCompositePass.php:83-93 | Each occurrence on a member is its own entry, with its full properties and its priority, stamped in order; fails exactly when some priority is not an int |
| DynamicCompositePass.Pushes | src/DependencyInjection/Compiler/DynamicCompositePass.php:82-93 | The pushed entries are stamped consecutively in discovery order |
| DynamicCompositePass.CollectIsQueued | src/DependencyInjection/Compiler/DynamicCompositePass.php:78-97 | Collecting as the loops do is pushing every occurrence in discovery order |
| DynamicCompositePass.CollectSpec | src/DependencyInjection/Compiler/DynamicCompositePass.php:78-97 | The members are exactly the pushed occurrences, ordered by ascending priority with ties in discovery order; collecting fails exactly when some pushed occurrence has a bad priority |
| DynamicCompositePass.UnprioritizedKeepsDiscoveryOrder | src/DependencyInjection/Compiler/DynamicCompositePass.php:84-92 | Without prioritization nothing can fail and the members are in pure discovery order |
| DynamicCompositePass.NeverFailsUnprioritized | src/DependencyInjection/Compiler/DynamicCompositePass.php:86-90 | Without prioritization the priority is neither read nor checked |
| DynamicCompositePass.Ids | src/DependencyInjection/Compiler/DynamicCompositePass.php:137-142 | The constructor list is the members' references, in queue order |
| DynamicCompositePass.CallsFor | src/DependencyInjection/Compiler/DynamicCompositePass.php:173-185 | One call per member, in order, each the resolver's arguments plus the member at the configured slot |
| DynamicCompositePass.AddCallsSucceeds | src/DependencyInjection/Compiler/DynamicCompositePass.php:173-178 | Method injection succeeds exactly when the resolver sets the slot for no member, otherwise "already defined by the resolver" |
| DynamicCompositePass.AddCallsResult | src/DependencyInjection/Compiler/DynamicCompositePass.php:173-186 | On success the composite has gained exactly one call per member, in order, and nothing else changed |
| DynamicCompositePass.RegisterCompositeSpec | src/DependencyInjection/Compiler/DynamicCompositePass.php:99-128 | The composite must exist. Constructor mode sets exactly the configured slot to the member list, replacing it; method mode finishes the tag's resolver once, and only a registered one |
| DynamicCompositePass.DynamicCompositePass.Process | src/DependencyInjection/Compiler/DynamicCompositePass.php:43-48 | The graph and the finish log end as the run specification says, or the run fails with its error |
| DynamicCompositePass.DynamicCompositePass.RegisterDynamicTraversers | src/DependencyInjection/Compiler/DynamicCompositePass.php:50-76 | Every occurrence of the pass tag on one composite is handled in order, as specified |
| DynamicCompositePass.DynamicCompositePass.RegisterOccurrence | src/DependencyInjection/Compiler/DynamicCompositePass.php:53-75 | One occurrence is configured, its members collected and injected, as the per-occurrence specification says |
| DynamicCompositePass.DynamicCompositePass.CollectServicesToInject | src/DependencyInjection/Compiler/DynamicCompositePass.php:78-97 | The loops compute exactly the specified queue |
| DynamicCompositePass.DynamicCompositePass.PushOccurrences | src/DependencyInjection/Compiler/DynamicCompositePass.php:83-93 | The inner loop pushes one member's occurrences as specified |
| DynamicCompositePass.DynamicCompositePass.RegisterDynamicComposite | src/DependencyInjection/Compiler/DynamicCompositePass.php:99-128 | Constructor or method injection, as the injection specification says |
| DynamicCompositePass.DynamicCompositePass.RegisterDynamicCompositeForConstructor | src/DependencyInjection/Compiler/DynamicCompositePass.php:130-144 | Exactly the configured slot is set to the member references |
| DynamicCompositePass.DynamicCompositePass.RegisterDynamicCompositeForMethod | src/DependencyInjection/Compiler/DynamicCompositePass.php:146-189 | Adds the specified calls, then logs the resolver's `finish` once, only for a registered resolver; fails on a colliding slot |
| ServiceLinkerPass.MarkerInjective | src/DependencyInjection/Compiler/ServiceLinkerPass.php:299-308 | Two processed-argument markers are equal exactly when service and argument are |
| ServiceLinkerPass.Provisions | src/DependencyInjection/Compiler/ServiceLinkerPass.php:246-247 | Each occurrence of a provider tag contributes its `provides` value, with its service, in order |
| ServiceLinkerPass.ProvideAppend | src/DependencyInjection/Compiler/ServiceLinkerPass.php:233-235 | Discovering from one provider after another is discovering from both lists in a row |
| ServiceLinkerPass.ProvidableResolves | src/DependencyInjection/Compiler/ServiceLinkerPass.php:246-264 | String, new and distinct keys are all added, each mapped to its provider |
| ServiceLinkerPass.ProvidedAreProvidable | src/DependencyInjection/Compiler/ServiceLinkerPass.php:246-264 | A table that was built had only string, new and distinct keys |
| ServiceLinkerPass.ProvideSpec | src/DependencyInjection/Compiler/ServiceLinkerPass.php:240-265 | A provider table is built exactly when every `provides` is a string, none is taken and no two are equal. It then maps each key to its provider and keeps the old entries |
| ServiceLinkerPass.ProvideErrors | src/DependencyInjection/Compiler/ServiceLinkerPass.php:249-261 | A failure is a non-string `provides` of some provider, or "already provides" for one of the provided keys |
| ServiceLinkerPass.AllProvisionsMembers | src/DependencyInjection/Compiler/ServiceLinkerPass.php:233-235 | Each provision comes from one occurrence of a tagged service, and each occurrence gives one |
| ServiceLinkerPass.DiscoveredTable | src/DependencyInjection/Compiler/ServiceLinkerPass.php:231-237 | The built table maps each occurrence's key to the service carrying it, and holds no other key |
| ServiceLinkerPass.EnsureProvidersSpec | src/DependencyInjection/Compiler/ServiceLinkerPass.php:219-238 | A table already built in this run is reused. Otherwise no tagged service gives "No providers with tag T", and a built table is added with the other tables kept |
| ServiceLinkerPass.StrategySpec | src/DependencyInjection/Compiler/ServiceLinkerPass.php:157-217 | Exactly one of `provider`, `param`, `service` must be a string, otherwise the ambiguity error. A provider needs a string `provider_tag` and that tag's table, built on first use; a bad `provider_tag`, a table that cannot be built, and a key the table lacks ("No service provides K (tag T)") each fail with their own error. Otherwise the slot receives the table's service, the parameter's value or a reference to the named service, the tables are those the lookup left, and nothing else changes. A missing parameter fails |
| ServiceLinkerPass.ResolverLinkedSpec | src/DependencyInjection/Compiler/ServiceLinkerPass.php:141-153 | A resolver links only when it is defined, not abstract and tagged once, checked in that order, and then as its occurrence's strategy says |
| ServiceLinkerPass.ResolversLinkedCons | src/DependencyInjection/Compiler/ServiceLinkerPass.php:141-154 | The resolvers are linked one by one, each from the state the previous one left, and the first error stops the loop |
| ServiceLinkerPass.LinkDirect | src/DependencyInjection/Compiler/ServiceLinkerPass.php:97-119 | Direct mode needs a string `provider_tag`, that tag's table (built on first use) and a string `provider`, checked in that order, each failing with its own error. It then sets the consumer's own slot to the table's service and keeps the tables the lookup left; an absent key gives "No service provides K (tag T)" |
| ServiceLinkerPass.SlotLinked | src/DependencyInjection/Compiler/ServiceLinkerPass.php:89-95 | A slot already processed is skipped with nothing changed. Otherwise it is marked processed, and then only argument slots change |
| ServiceLinkerPass.OnlySlotsChangeTrans | src/DependencyInjection/Compiler/ServiceLinkerPass.php:65-67 | Slot-only changes compose |
| ServiceLinkerPass.StrategyFrame | src/DependencyInjection/Compiler/ServiceLinkerPass.php:157-217 | Indirect linking changes only argument slots, and not the store |
| ServiceLinkerPass.SetArgumentOnlySlots | src/DependencyInjection/Compiler/ServiceLinkerPass.php:113-114 | Setting an argument is a slot-only change |
| ServiceLinkerPass.LinkServiceFrame | src/DependencyInjection/Compiler/ServiceLinkerPass.php:135-155 | Linking through the resolver tag changes only argument slots, and not the store |
| ServiceLinkerPass.LinkOneFrame | src/DependencyInjection/Compiler/ServiceLinkerPass.php:97-131 | Linking a new slot, directly or indirectly, changes only argument slots, and not the store |
| ServiceLinkerPass.LinkServicesMarks | src/DependencyInjection/Compiler/ServiceLinkerPass.php:74-133 | A consumer links only when its slots are int or string and distinct. Afterwards the processed set has gained exactly its markers, and only argument slots changed |
| ServiceLinkerPass.LinkServicesSkips | src/DependencyInjection/Compiler/ServiceLinkerPass.php:89-93 | A consumer whose slots are all processed is skipped entirely |
| ServiceLinkerPass.LinkAllMarks | src/DependencyInjection/Compiler/ServiceLinkerPass.php:65-67 | Linking every consumer changes only slots, only grows the processed set, and leaves every requested slot marked |
| ServiceLinkerPass.LinkAllSkips | src/DependencyInjection/Compiler/ServiceLinkerPass.php:65-67 | When every consumer's slots are marked, linking changes nothing |
| ServiceLinkerPass.LinkIdempotent | src/DependencyInjection/Compiler/ServiceLinkerPass.php:52-72 | Running the linker again on its own output succeeds and changes nothing |
| ServiceLinkerPass.DuplicateSlotFails | src/DependencyInjection/Compiler/ServiceLinkerPass.php:83-85 | A slot named twice on one consumer fails the run; when the slots before the second naming link, the error is "Argument A already defined on service S" |
| ServiceLinkerPass.SlotAlreadyDefined | src/DependencyInjection/Compiler/ServiceLinkerPass.php:78-85 | An occurrence naming a slot already taken, after occurrences that all link, fails the consumer with "Argument A already defined on service S" |
| ServiceLinkerPass.DiscoverProvidersFromTags | src/DependencyInjection/Compiler/ServiceLinkerPass.php:240-265 | The loop adds one provider's keys exactly as the table specification says |
| ServiceLinkerPass.ServiceLinkerPass.Process | src/DependencyInjection/Compiler/ServiceLinkerPass.php:52-72 | The graph ends in the state the run specification gives, or the run fails with its error; the provider tables are dropped either way |
| ServiceLinkerPass.ServiceLinkerPass.LinkConsumers | src/DependencyInjection/Compiler/ServiceLinkerPass.php:65-67 | Every consumer is linked in declaration order, as specified |
| ServiceLinkerPass.ServiceLinkerPass.LinkServices | src/DependencyInjection/Compiler/ServiceLinkerPass.php:74-133 | One consumer's slots are linked in order, as specified |
| ServiceLinkerPass.ServiceLinkerPass.LinkSlot | src/DependencyInjection/Compiler/ServiceLinkerPass.php:89-131 | One slot is skipped or marked and linked, as specified |
| ServiceLinkerPass.ServiceLinkerPass.LinkOne | src/DependencyInjection/Compiler/ServiceLinkerPass.php:97-131 | The direct branch or the resolver tag, as specified |
| ServiceLinkerPass.ServiceLinkerPass.LinkService | src/DependencyInjection/Compiler/ServiceLinkerPass.php:135-155 | Every resolver is linked in declaration order, as specified |
| ServiceLinkerPass.ServiceLinkerPass.LinkResolver | src/DependencyInjection/Compiler/ServiceLinkerPass.php:142-153 | One resolver is checked and linked, as specified |
| ServiceLinkerPass.ServiceLinkerPass.LinkDependingOnStrategy | src/DependencyInjection/Compiler/ServiceLinkerPass.php:157-217 | The resolver's slot is filled from its one source, as specified |
| ServiceLinkerPass.ServiceLinkerPass.EnsureProvidersDiscoveredFor | src/DependencyInjection/Compiler/ServiceLinkerPass.php:219-238 | The tables field ends as the table specification says, or the call fails with its error |
| EventDispatcherPass.TagCheck | src/DependencyInjection/Compiler/EventDispatcherPass.php:79-96 | Passes exactly when `listener_tag` and `subscriber_tag` are both present and not null and differ; only presence is checked, not the type. Otherwise it fails with the missing listener tag, then the missing subscriber tag, then "Values for listener_tag and subscriber_tag are the same", in that order |
| EventDispatcherPass.AssertValidTagDefinition | src/DependencyInjection/Compiler/EventDispatcherPass.php:79-96 | The loop over the two options computes exactly that check |
| EventDispatcherPass.DiscoverOneAccepts | src/DependencyInjection/Compiler/EventDispatcherPass.php:55-72 | An occurrence is accepted exactly when it is valid and neither its listener tag nor its subscriber tag is claimed yet; the new state claims both for the service and appends its dispatcher |
| EventDispatcherPass.DiscoverOneSpec | src/DependencyInjection/Compiler/EventDispatcherPass.php:55-72 | An occurrence is accepted exactly when it is valid and neither name is claimed; it then claims both for its service and records its dispatcher. An invalid occurrence fails with its validation error; a claimed listener tag, and then a claimed subscriber tag, fails with "already used by" its owner |
| EventDispatcherPass.Occurrences | src/DependencyInjection/Compiler/EventDispatcherPass.php:55 | Each occurrence of a service is paired with the service, in order |
| EventDispatcherPass.DiscoverAppend | src/DependencyInjection/Compiler/EventDispatcherPass.php:54-74 | Discovering two lists in a row is discovering the first, then the second from where the first left off |
| EventDispatcherPass.AllValidCons | src/DependencyInjection/Compiler/EventDispatcherPass.php:56 | All occurrences are valid exactly when the first one and the rest are |
| EventDispatcherPass.DiscoverSucceeds | src/DependencyInjection/Compiler/EventDispatcherPass.php:48-77 | Discovery succeeds exactly when every occurrence is valid and no name is claimed twice across the run, nor claimed before |
| EventDispatcherPass.DiscoverRecords | src/DependencyInjection/Compiler/EventDispatcherPass.php:68-72 | One dispatcher is recorded per occurrence, in discovery order, after the ones already recorded |
| EventDispatcherPass.DiscoverOwners | src/DependencyInjection/Compiler/EventDispatcherPass.php:58-66 | Every claimed name belongs to the service that claimed it |
| EventDispatcherPass.DiscoverKeepsClaims | src/DependencyInjection/Compiler/EventDispatcherPass.php:58-66 | A name claimed earlier keeps its owner |
| EventDispatcherPass.ReusedListenerTagFails | src/DependencyInjection/Compiler/EventDispatcherPass.php:59-63 | A valid occurrence reusing an earlier listener tag fails with "already used by" its first owner, whatever follows |
| EventDispatcherPass.ClaimedShape | src/DependencyInjection/Compiler/EventDispatcherPass.php:58 | Occurrence k claims its listener tag and then its subscriber tag, at places 2k and 2k+1 |
| EventDispatcherPass.RegisterFrom | src/DependencyInjection/Compiler/EventDispatcherPass.php:37-45 | The processed set still exists after registration |
| EventDispatcherPass.Listeners | src/DependencyInjection/Compiler/EventDispatcherPass.php:37 | The listener tags of the dispatchers, in order |
| EventDispatcherPass.Unprocessed | src/DependencyInjection/Compiler/EventDispatcherPass.php:38-40 | Exactly the dispatchers whose listener tag is not processed |
| EventDispatcherPass.MarkersMembers | src/DependencyInjection/Compiler/EventDispatcherPass.php:44 | The markers added are exactly the dispatchers' listener tags |
| EventDispatcherPass.UnprocessedIgnores | src/DependencyInjection/Compiler/EventDispatcherPass.php:38-44 | Marking a tag no dispatcher has does not change which are unprocessed |
| EventDispatcherPass.RegisterFromMarks | src/DependencyInjection/Compiler/EventDispatcherPass.php:37-45 | Registration adds every listener tag to the processed set and changes no other set |
| EventDispatcherPass.RegisterFromFrame | src/DependencyInjection/Compiler/EventDispatcherPass.php:37-45 | Registration changes nothing in the graph but the processed sets |
| EventDispatcherPass.RegisterFromLog | src/DependencyInjection/Compiler/EventDispatcherPass.php:37-45 | With distinct listener tags, exactly the dispatchers whose tag was not processed are registered, in order |
| EventDispatcherPass.RegisterFromDone | src/DependencyInjection/Compiler/EventDispatcherPass.php:38-40 | With every listener tag processed, registration changes nothing |
| EventDispatcherPass.DiscoveredListenersDistinct | src/DependencyInjection/Compiler/EventDispatcherPass.php:58-66 | The discovered listener tags are distinct |
| EventDispatcherPass.OccurrenceListenersDistinct | src/DependencyInjection/Compiler/EventDispatcherPass.php:54-72 | Any list of occurrences discovered without an error yields dispatchers with pairwise distinct listener tags |
| EventDispatcherPass.DispatchIdempotent | src/DependencyInjection/Compiler/EventDispatcherPass.php:31-46 | A second run registers nothing and changes nothing |
| EventDispatcherPass.DispatchRegistersUnprocessed | src/DependencyInjection/Compiler/EventDispatcherPass.php:31-46 | A run registers exactly the discovered dispatchers whose listener tag was not processed, in discovery order, and marks every discovered listener tag |
| EventDispatcherPass.EventDispatcherPass.Process | src/DependencyInjection/Compiler/EventDispatcherPass.php:31-46 | The graph and the registration log end as specified; a validation error leaves both untouched |
| EventDispatcherPass.EventDispatcherPass.FindRegisteredDispatchers | src/DependencyInjection/Compiler/EventDispatcherPass.php:48-77 | The loops compute exactly the specified dispatchers and change nothing |
| EventDispatcherPass.EventDispatcherPass.DiscoverService | src/DependencyInjection/Compiler/EventDispatcherPass.php:55-73 | One service's occurrences are discovered as specified |
| EventDispatcherPass.EventDispatcherPass.ClaimTags | src/DependencyInjection/Compiler/EventDispatcherPass.php:58-66 | The two names are claimed in order as specified |
| ConsoleRunnablePass.CommandIdInjective | src/DependencyInjection/Compiler/ConsoleRunnablePass.php:158 | Different runnables get different `<id>.command` ids |
| ConsoleRunnablePass.ConcreteTagged | src/DependencyInjection/Compiler/ConsoleRunnablePass.php:54 | Passes exactly when no tagged service is abstract; the first abstract one is reported |
| ConsoleRunnablePass.TagDefinitionCheck | src/DependencyInjection/Compiler/ConsoleRunnablePass.php:115-138 | Passes exactly when exactly one of `command` and `mapper` is set and it is a string. Neither and both are reported as such |
| ConsoleRunnablePass.MapperFor | src/DependencyInjection/Compiler/ConsoleRunnablePass.php:88-113 | A mapper exists exactly when the class is known and implements the interface; an unknown class gives "does not exist", a known one that does not implement the interface gives "does not implement" |
| ConsoleRunnablePass.CachedMapper | src/DependencyInjection/Compiler/ConsoleRunnablePass.php:78-80 | After a lookup the class is cached and the graph is unchanged |
| ConsoleRunnablePass.ResolvedNameIsCommandName | src/DependencyInjection/Compiler/ConsoleRunnablePass.php:70-86 | The cache is transparent: the resolved name (a `command` verbatim, or the mapper applied to the runnable's class) and the errors are those of the cache-free definition, and a class is instantiated only on a cache miss |
| ConsoleRunnablePass.RunOneSpec | src/DependencyInjection/Compiler/ConsoleRunnablePass.php:55-63 | A runnable succeeds exactly when it has one tag, a well-formed one, and a resolvable name; only its `<id>.command` definition is then set. It fails in order: the multiple-tags error, then the tag's option error, then the name's error |
| ConsoleRunnablePass.RunnablesKeepCache | src/DependencyInjection/Compiler/ConsoleRunnablePass.php:76-80 | Over a run the cache stays faithful and each mapper class is instantiated at most once |
| ConsoleRunnablePass.RunnablesKeepCommand | src/DependencyInjection/Compiler/ConsoleRunnablePass.php:54-64 | A command already defined survives the rest of the run |
| ConsoleRunnablePass.RunnablesDefineCommands | src/DependencyInjection/Compiler/ConsoleRunnablePass.php:54-64 | After a successful run every tagged service has its command |
| ConsoleRunnablePass.RunnablesKeepLog | src/DependencyInjection/Compiler/ConsoleRunnablePass.php:78-80 | The instantiation log only grows |
| ConsoleRunnablePass.RegisterSpec | src/DependencyInjection/Compiler/ConsoleRunnablePass.php:49-68 | A successful run defines a command for every tagged runnable and instantiates each mapper class at most once |
| ConsoleRunnablePass.ConsoleRunnablePass.Process | src/DependencyInjection/Compiler/ConsoleRunnablePass.php:49-68 | The graph and the log end as specified; the cache is empty afterwards, whatever happened |
| ConsoleRunnablePass.ConsoleRunnablePass.RegisterRunnables | src/DependencyInjection/Compiler/ConsoleRunnablePass.php:54-64 | Each tagged service is registered in turn, as specified, stopping at the first error |
| ConsoleRunnablePass.ConsoleRunnablePass.RegisterRunnable | src/DependencyInjection/Compiler/ConsoleRunnablePass.php:55-63 | One runnable is checked and its command defined, as specified |
| ConsoleRunnablePass.ConsoleRunnablePass.ResolveCommandName | src/DependencyInjection/Compiler/ConsoleRunnablePass.php:70-86 | The name and the cache end as the resolution specification says |
| ConsoleRunnablePass.ConsoleRunnablePass.CreateMapper | src/DependencyInjection/Compiler/ConsoleRunnablePass.php:88-113 | Returns exactly the registry's answer and changes nothing |
| ConsoleRunnablePass.ConsoleRunnablePass.CreateCommandService | src/DependencyInjection/Compiler/ConsoleRunnablePass.php:140-159 | Defines `<id>.command` as a `RunnableCommand` with arguments `[Reference(id), name]` and tag `console.command` `[[]]`, replacing any definition under that id |
| RunnableMapper.DsMapMapper.Map | src/DependencyInjection/Compiler/ConsoleRunnable/DsMapRunnableToNameMapper.php:30-37 | Succeeds exactly when the class is a key and then gives the stored name; otherwise "Runnable F not mapped" |
| RunnableMapper.MappedNamesAreValues | src/DependencyInjection/Compiler/ConsoleRunnable/DsMapRunnableToNameMapper.php:25-37 | The names a map-backed mapper can produce are exactly the values of its fixed table |

## Left out

- Symfony's `ContainerBuilder` is an abstract graph here. Left out:
  - alias resolution inside `findDefinition`;
  - `ChildDefinition` resolution;
  - the outer/inner nesting that Symfony's own decoration pass computes later from `setDecoratedService`.

  Only the parent, the `(decorated id, priority)` pair and the definition order this code records are kept.
- `findTaggedServiceIds` is a function of the ids and tags. Its refusal of abstract services (the `true` flag) is modelled only where the console pass asks for it.
- The graph after a failed run is not modelled; a run that throws only has its error. So that a slot is marked before linking, and that a decorated reference is marked after decorating, shows only on success paths.
- Reflection and class loading in the console pass are a registry from class name to mapper; the `FileResource` added for a mapper class is not modelled.
- `RegisterListenersPass` is foreign; its only modelled effect is an entry in the `registered` log, next to the processed-set update.
- `sha1` is the parameter `hash`; the model does not rely on it being injective.
- Composite argument resolvers and runnable-to-name mappers are pure functions; a resolver's `finish` is an entry in the `finished` log.
- Proxy decoration does not occur in the modelled decorator code and is not modelled.
- The tests of the dynamic composite pass expect idempotence and an "already provided" check, and those of the console pass expect idempotence. The source implements none of these, so the model follows the source and asserts none of them.
- Functions.ParseKey: a group written with leading zeros (`i01_name`) is not matched. PHP would keep it as a separate string-keyed group sorted by `ksort`'s mixed rules.
- Functions.GroupFlatKeys: two keys read as the same group and property happen only when a newline follows the property (`i0_a` and `i0_a\nb`). PHP keeps the later key in the array's insertion order. A property map has no order here, so the model keeps the key that comes last lexicographically. GroupTableIs, GroupTable and ReconstructTagsFromFlat inherit this choice, and with no newline in any key the two agree (GroupTableWithoutNewlines).
- Functions.FlattenRoundTrip: needs property names without a newline, and an occurrence's own `name` property is replaced by its tag name, since the linear form has one `name` key per group.
- Container.GraphState.SetAlias: Symfony refuses an alias to itself and validates ids; neither is modelled. In the decorator pass the alias `<service>.<hash>` is always longer than the service id, so it never points to itself.
- Container.GraphState.SetDefinition: Symfony's validation of the id is not modelled.
- Container.GraphState.AddMethodCall: Symfony refuses an empty method name (`""` or `"0"`) with an exception, but the model appends the call under any name. So a composite configured with `method: ""` fails in PHP at `addMethodCall`, while here it gains a call named `""`.
- Container.Definition: argument slots and method-call arguments are maps from slot to value, so the order of a PHP argument array is not kept. In PHP a new named key, such as the member slot the composite pass adds to a resolver's arguments, goes at the end, and Symfony passes positional arguments in array order. The model states only which value each slot holds.
- Functions.EmitGroups: a `name` that is set but is not a string fails with `TagNameNotString`. PHP would turn an int or bool name into an array key.
- Integers are unbounded. PHP's integer width, numeric-string array keys and floats do not occur in the model.
- `Ds\Map`/`Ds\Set` hashing is modelled as value equality: a `TagReference` by `(tag, service, argument)`, a `ProcessedArgument` by `(service, argument)`, a listener tag by its scalar value.
- The `php-ds` `PriorityQueue` is an ordered sequence with a push stamp. The source relies on it being stable on ties, which the model states as an explicit order.
- Store keys are assumed not to collide across passes with different class names.
- A command id that collides with a tagged runnable's id is not analysed.
- EventDispatcherPass.RegisterFromLog: requires distinct listener tags. Discovery always provides them (DiscoveredListenersDistinct), but registration with repeated tags is not characterised.
- DecoratorPass.RunRemembersDecorated: states that the processed set contains the decorated references. The exact equation is proved one level down, in DecorateAllRemembers.
- DynamicCompositePass.RegisterCompositeSpec: in method mode it states only the finish log. The calls added are stated by AddCallsResult.
