# Organisation repository listing and chat display/validation, modelled in Dafny

This project models two small pieces of a Python code base.

The first is a client for a code-hosting API. `GithubOrgClient` is bound to an
organisation name. Its `org` property fetches the organisation document on
every access. `_public_repos_url` reads that document's `repos_url` and is
cached on the instance by the `memoize` decorator. `public_repos` fetches the
repository listing from that URL and returns the repository names. It can
keep only the repositories whose license key equals a given key. The static
`has_license` test decides that. A helper, `access_nested_map`, walks a path
of keys through nested mappings.

The second is the framework-free part of a chat backend. It covers the two
serializer validators (message body, conversation participant list) and the
display strings of the user, conversation and message models.

Files:

- `wrappers.dfy`: `Option` and `Result`.
- `json.dfy` (module `JsonValues`): decoded JSON values, and the Python
  exceptions the code can raise. It also holds the three Python behaviours the
  client relies on:
  - subscripting `x[key]` (`KeyError` on a mapping, `TypeError` otherwise);
  - `.get` (only mappings have it, otherwise `AttributeError`);
  - truthiness.
- `utils.dfy` (module `Utils`): `access_nested_map` as a loop over a cursor,
  proved equal to a recursive walk. Also the name of the attribute `memoize`
  caches under.
- `client.dfy` (module `Client`): the selection logic as pure functions, and
  the client as a class. In the class, `attributes` holds the instance
  attributes `memoize` sets, and a ghost `requests` log records every URL the
  client fetches. The HTTP fetch is an oracle `Net` from URL to decoded body
  or failure, passed to each call.
- `serializers.dfy` (module `Serializers`): the two validators. Python's
  `str.strip()` is modelled with its exact whitespace set.
- `models.dfy` (module `ChatModels`): the three display strings.

Notes on the Python semantics that the model makes explicit:

- The `memoize` decorator stores the value under `"_"` followed by the method
  name. The decorated method is `_public_repos_url`, so the attribute is
  `__public_repos_url`.
- The cache is tested for presence, so a stored `null` is served too.
- A failing computation stores nothing.
- `has_license` replaces a falsy license (missing, `null`, `false`, `0`, `""`,
  `[]`, `{}`) with an empty mapping. A truthy license that is not a mapping
  has no `.get`, so the test raises `AttributeError` for it. This is the one
  way the filtered pass of `public_repos` can fail once every record has a
  name.
- Iterating a decoded listing that is a string or a mapping yields strings.
  Subscripting a string by `"name"` raises `TypeError`, so such a listing
  fails unless it is empty. Other non-lists are not iterable.
- A memoized URL that is not a string is refused before any request is sent.
  It is reported as `InvalidUrl`.

## Model

| member | source | states |
|---|---|---|
| `Utils.AccessNestedMap` | 0x03-Unittests_and_integration_tests/utils.py:6-10 | the cursor loop returns exactly the left-to-right walk of the path: the final value, or the error of the first lookup that fails |
| `Utils.WalkAppend` | 0x03-Unittests_and_integration_tests/utils.py:8-9 | walking `p + q` is walking `p` then `q` from where `p` ended; a failure in `p` is the failure of the whole walk |
| `Utils.PathComposition` | 0x03-Unittests_and_integration_tests/utils.py:8-9 | one more key is one more subscript of the shorter walk's result |
| `Utils.EmptyPathIsIdentity` | 0x03-Unittests_and_integration_tests/utils.py:7-10 | the empty path returns the input value itself |
| `Utils.WalkFailsAtFirstBadKey` | 0x03-Unittests_and_integration_tests/utils.py:9 | if the value reached by a prefix lacks the next key, or is not a mapping, the whole walk fails with `KeyError(key)`, or `TypeError` respectively; no default is returned |
| `Utils.MemoAttribute` | 0x03-Unittests_and_integration_tests/utils.py:19 | the cache attribute is `"_"` followed by the method name |
| `Client.OrgUrl` | 0x03-Unittests_and_integration_tests/client.py:10-12 | the organisation URL is the fixed endpoint followed verbatim by the name |
| `Client.OrgUrlInjective` | 0x03-Unittests_and_integration_tests/client.py:12 | distinct organisation names are fetched at distinct URLs |
| `Client.HasLicense` | 0x03-Unittests_and_integration_tests/client.py:25-28 | true iff the record's license is a mapping whose `"key"` is exactly the wanted string; raises `AttributeError` iff the record is not a mapping or its license is truthy but not a mapping |
| `Client.MissingLicenseIsUnlicensed` | 0x03-Unittests_and_integration_tests/client.py:27-28 | a missing, `null` or empty license, or one without `"key"`, gives false and not an error |
| `Client.NamesOf` | 0x03-Unittests_and_integration_tests/client.py:20 | succeeds iff every record is a mapping with `"name"`, then gives every name in order |
| `Client.NamesOfFailsAtFirstUnnamed` | 0x03-Unittests_and_integration_tests/client.py:20 | when some record lacks a name, the first pass fails with the lookup error (`KeyError("name")`, or `TypeError` for a non-mapping) of the first such record |
| `Client.Licensed` | 0x03-Unittests_and_integration_tests/client.py:23 | reference selection: holds exactly the records whose license test is true, each as many times as in the input, and is no longer than the input |
| `Client.LicensedIsSubsequence` | 0x03-Unittests_and_integration_tests/client.py:23 | the licensed records keep their input order: they are a subsequence of the records |
| `Client.FilteredNames` | 0x03-Unittests_and_integration_tests/client.py:23 | the filtering pass is no longer than the records, every name it returns belongs to a named record whose license test is true, and it can only raise `AttributeError`, `TypeError` or `KeyError("name")` |
| `Client.ListNames` | 0x03-Unittests_and_integration_tests/client.py:20-23 | a successful call means every record was named; with no license the answer is all the names; with one it is no longer than the records; the only errors are `TypeError`, `KeyError("name")` and `AttributeError` |
| `Client.Records` | 0x03-Unittests_and_integration_tests/client.py:19-20 | a list yields its items; the empty string and the empty mapping yield no records; every other listing raises `TypeError` |
| `Client.UnfilteredIsAllNames` | 0x03-Unittests_and_integration_tests/client.py:20-22 | with no license, the answer is every record's name in listing order, and exists iff all records are named |
| `Client.UnnamedRecordFailsEveryFilter` | 0x03-Unittests_and_integration_tests/client.py:20-23 | a record without a name makes the call fail whatever license is asked for, even if the filter would drop that record |
| `Client.FilteredNamesAreLicensedNames` | 0x03-Unittests_and_integration_tests/client.py:23 | with named records and well-formed licenses, the filtered answer is exactly the names of the licensed records, in order |
| `Client.FilterFailsOnlyOnMalformedLicense` | 0x03-Unittests_and_integration_tests/client.py:23-28 | with named records, the filtered pass fails iff some record's license test raises, and then with `AttributeError` |
| `Client.FilteredIsSubsequenceOfAll` | 0x03-Unittests_and_integration_tests/client.py:20-23 | the filtered names are a subsequence of all the names |
| `Client.FilteredListingIsSubsequence` | 0x03-Unittests_and_integration_tests/client.py:18-23 | when a filtered call succeeds, the unfiltered call succeeds too and the filtered answer is a subsequence of it |
| `Client.ListingScenario` | 0x03-Unittests_and_integration_tests/test_client.py:95-104 | a three-repository listing gives all three names unfiltered, only the "apache-2.0" one for that key, and none for an absent key |
| `Client.MemoizedUrlIgnoresNetwork` | 0x03-Unittests_and_integration_tests/utils.py:22-24 | once the attribute exists, reading it returns the stored value, `null` included, whatever the network holds |
| `Client.UnmemoizedUrlReadsOrganisation` | 0x03-Unittests_and_integration_tests/client.py:14-16 | without the attribute, the read succeeds iff the organisation fetch succeeds with a mapping that has `"repos_url"`, and then returns that entry |
| `Client.ReposUrlRead` | 0x03-Unittests_and_integration_tests/utils.py:21-24 | a present attribute is the answer; a failure happens only without the attribute, and is the organisation fetch's error, `TypeError` or `KeyError("repos_url")` |
| `Client.Listing` | 0x03-Unittests_and_integration_tests/client.py:19 | a non-string URL gives `InvalidUrl`; a success comes from fetching exactly that URL and selecting names from its body; a failed fetch's error is returned |
| `Client.GithubOrgClient.constructor` | 0x03-Unittests_and_integration_tests/client.py:7-8 | a new client holds the name, no memoized attribute and no fetches |
| `Client.GithubOrgClient.Org` | 0x03-Unittests_and_integration_tests/client.py:10-12 | every access fetches the organisation URL once and returns the fetch's answer; nothing is cached |
| `Client.GithubOrgClient.PublicReposUrl` | 0x03-Unittests_and_integration_tests/client.py:14-16 | with the attribute present: returns it, no fetch, no state change; otherwise: exactly one organisation fetch, and the attribute is set to `repos_url` only when the read succeeds |
| `Client.GithubOrgClient.PublicRepos` | 0x03-Unittests_and_integration_tests/client.py:18-23 | reads the memoized URL, performs exactly one listing fetch at that URL (none if the URL read fails), and returns the selected names |
| `Client.ReadReposUrlTwice` | 0x03-Unittests_and_integration_tests/utils.py:21-24 | after a successful first read the second returns the same value with no further fetch; after a failed one the organisation is fetched again |
| `Serializers.StripEmptyIffAllSpace` | messaging_app/chats/serializers.py:57 | `strip()` leaves nothing exactly when every character is whitespace |
| `Serializers.ValidateMessageBody` | messaging_app/chats/serializers.py:55-59 | accepts iff the body is present and has a non-whitespace character, returning it unstripped; otherwise the "cannot be empty" error |
| `Serializers.ValidateParticipantIds` | messaging_app/chats/serializers.py:94-100 | missing or empty: the "at least one" error; one element: the "at least 2" error; two or more: returned unchanged |
| `ChatModels.UserStr` | messaging_app/chats/models.py:43-44 | first name, a space, last name, `" ("`, email and `")"`, each at its position |
| `ChatModels.ConversationStr` | messaging_app/chats/models.py:66-71 | starts with `"Conversation: "`; with 0, 1, or 2+ participants it is the prefix alone, the prefix plus the first name, or the prefix plus the first two names joined by `", "` |
| `ChatModels.ConversationStrShowsFirstTwo` | messaging_app/chats/models.py:69 | participants after the second never change the string |
| `ChatModels.MessageStr` | messaging_app/chats/models.py:121-122 | `"Message from "`, the sender's first name, `" in "` and the conversation id, each at its position; so it contains both the name and the id |

## Left out

- The HTTP fetch and JSON decoding (`get_json`, utils.py:13-15) are an oracle from URL to decoded body or failure. Transport and decode failures are one `FetchError` case.
- JSON numbers are integers. Floating-point values are not modelled, so neither is their truthiness.
- Concurrent first access to the memoized property is not modelled. The source does not guard it.
- Mutation of the input of `access_nested_map` is not modelled: JSON values here are immutable values.
- Conversation ids are strings holding the UUID's printed form. UUID generation and formatting are not modelled, and neither are the `timezone.now` defaults.
- The order of `participants.all()` is whatever order the database returns. The model takes the participant sequence as given.
- Django/DRF machinery is not modelled: model field declarations and `Meta` options, `UserSerializer.create` with password hashing, `ConversationSerializer.create`, `get_last_message`, `get_unread_count` and every view. These are declarations or calls into the framework and the database.
- Any framework validation that runs before the two validators, such as blank or null checks on fields, is not modelled. The validators are modelled on whatever value reaches them.
