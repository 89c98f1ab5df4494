# CKAN configuration loading and example plugins, in Dafny

This project models the command-line configuration bootstrap of CKAN and five
small plugins and helpers that sit beside it:

- `cli_config.dfy` (module `CkanCli`) models `ckan/cli/__init__.py`.
  - `CKANConfigLoader` is the class `CkanConfigLoader`. It keeps the loader's
    fields: `config`, `config_file`, `parser` and `section`.
  - The loader reads the `app:main` section of an INI file. It then follows
    `use = config:<relative path>` links from file to file and merges each
    file's options into `config`.
  - The parser's defaults are `__file__`, `here` (the directory of the
    file being read) and every option of each file's `[DEFAULT]` section,
    where a later file overrides an earlier one. Defaults are rewritten on
    every merge and mirrored into the nested `global_conf` dictionary.
  - Ordinary options that no file sets in `[DEFAULT]` are
    first-writer-wins.
  - A `global_conf` option in `[DEFAULT]` replaces the dictionary with a
    string, and the merge then fails.
  - A link back to a file already loaded is reported as a circular chain.
  - `load_config` chooses the starting file: an explicit path, then
    `$CKAN_INI`, then `ckan.ini` or `development.ini` in the working
    directory.
  - Each method is proved against a reference definition. `LoadChain`
    (built from `Follow` and `FollowRead`) is the outcome of the whole
    chain. `Merged` is one `_update_config`. `ChooseConfigFile` is the
    file choice.
  - The lemmas about these definitions state the promises of the loader:
    - every ordinary option that no `[DEFAULT]` sets has the value of the
      earliest file in the chain that sets it;
    - every default has the latest `app:main` value, or else the latest
      `[DEFAULT]` value;
    - unless a file sets it, `here` is the directory of the last file read;
    - the loaded files are distinct, and each is reached by a link from
      the one before;
    - a reported cycle lists the files loaded so far and then the
      repeated path.
- `audio_view.dfy` (`AudioViewPlugin`) models `ckanext/audioview/plugin.py`:
  the format list read by `update_config`, the case-folding `can_view` test,
  `info`, and the two templates.
- `example_validators.dfy` (`ExampleValidators`) models
  `ckanext/example_ivalidators/plugin.py`: `equals_fortytwo`, `negate`,
  `unicode_please` and `get_validators`.
- `resource_controller.dfy` (`ResourceControllerPlugin`) models
  `ckanext/example_iresourcecontroller/plugin.py`: a `defaultdict(int)`
  counter bumped by seven hooks. A ghost call count is kept equal to the
  sum of the counters.
- `profile.dfy` (`ProfileCommand`) models the two strings that
  `ckan/cli/profile.py` derives from the URL: the output file name and the
  profiled statement.
- `auth_functions.dfy` (`ExampleIAuthFunctions`) models
  `ckanext/example_iauthfunctions/plugin_v2.py`: an auth function that
  refuses group creation to everyone.
- `py_value.dfy` (`PyValue`) and `py_text.dfy` (`PyText`) hold the Python
  values and string operations the models share:
  - `str.strip`;
  - `str.split()` and its inverse on words joined by single spaces;
  - ASCII `str.lower`;
  - one-character `str.replace`;
  - `str.join`.

The operating system is a parameter of the loader, a `Host` value. It holds:

- the readable files, each already parsed into sections;
- `abspath`, `dirname`, `join` and `expanduser` as uninterpreted functions;
- the working directory;
- the environment.

The chain loop need not stop. A linked file without its own `use` option
still sees the previous file's `use`, because the parser's sections
accumulate. If the path that link resolves to keeps changing (a
subdirectory link to a file that cannot be read), the loop keeps going
(`LinksGrowForever`, and the concrete host of `SpiralNeverEnds`). So
the reference definition takes a `Fuel` bound. The loader methods take the
bound as a ghost argument and require that it suffices.

Where the docstring of `ckan/cli/profile.py` and its code disagree, the
code is modelled. The docstring says that `profile /data/search` is saved
in `profile.data.search`, but the code writes `ckan.data.search.profile`
(see `ProfileCommand.DataSearchFile`).

## Model

| member | source | states |
|---|---|---|
| CkanCli.CkanConfigLoader.constructor | ckan/cli/__init__.py:24-30 | the file name is stripped, the section is `app:main`, the configuration is empty, and the parser's only default is `__file__`, the absolute path of the stripped name |
| CkanCli.CkanConfigLoader.UpdateDefaults | ckan/cli/__init__.py:33-35 | after the loop, the parser's defaults are the old defaults overridden by the new ones; the sections, configuration, file and section are unchanged |
| CkanCli.CkanConfigLoader.ReadConfigFile | ckan/cli/__init__.py:37-40 | `here` is set to the file's directory, then the file is read: its `[DEFAULT]` options override the defaults and its other sections are laid over those read before (an unreadable file adds nothing); nothing else changes |
| CkanCli.ParserState.Read | ckan/cli/__init__.py:40 | the defaults gain exactly the file's `[DEFAULT]` options, with the file's values; a section is present afterwards iff it was before or the file has it, `[DEFAULT]` excepted |
| CkanCli.ParserState.Options | ckan/cli/__init__.py:43 | the listing succeeds iff the section was read, otherwise `NoSectionError`; it is exactly the section's own options plus every default |
| CkanCli.ParserState.Get | ckan/cli/__init__.py:46 | succeeds iff the option is listed for the section; the section's own value wins over the default; a missing section or option gives `NoSectionError` or `NoOptionError` |
| CkanCli.MainAfterRead | ckan/cli/__init__.py:40 | after a read, the `app:main` options are the earlier ones overridden by the file's; the section exists iff it existed before or the file has it |
| CkanCli.CkanConfigLoader.UpdateConfig | ckan/cli/__init__.py:42-49 | the option loop succeeds iff `Merged` does and then ends in its configuration; otherwise it returns `Merged`'s error, and a missing `app:main` leaves the configuration unchanged |
| CkanCli.Merged | ckan/cli/__init__.py:42-49 | the merge fails only with `NoSectionError('app:main')` or, when `global_conf` is a default, with the item-assignment error; otherwise it keeps `global_conf` a dictionary |
| CkanCli.MergeRule | ckan/cli/__init__.py:42-49 | the merge succeeds iff `app:main` was read and `global_conf` is not a default, with the matching error otherwise; existing ordinary options keep their values; new options take the file's value; every parser default is rewritten and mirrored into `global_conf`; the keys are the old keys plus the section's options plus the defaults; other `global_conf` entries are kept |
| CkanCli.MergeKeys | ckan/cli/__init__.py:42-49 | after a merge, the configuration's keys are the old keys plus every listed option, and `global_conf`'s keys gain exactly the parser defaults |
| CkanCli.MergeValues | ckan/cli/__init__.py:44-48 | after a merge, existing ordinary options keep their values, new options take the section's value, and defaults take the parser's value |
| CkanCli.MergeMirrorValues | ckan/cli/__init__.py:48-49 | after a merge, each default is mirrored into `global_conf` with the parser's value, and other `global_conf` entries are kept |
| CkanCli.MergeOrdinary | ckan/cli/__init__.py:44-47 | an ordinary option that is not a default is present after the merge iff it was before or the section has it, and a value already present is kept |
| CkanCli.WrittenStep | ckan/cli/__init__.py:45-47 | handling one more option writes it exactly when it is new or a default |
| CkanCli.MirrorStep | ckan/cli/__init__.py:48-49 | handling one more option mirrors it into `global_conf` exactly when it is a default |
| CkanCli.MergeOptionsStep | ckan/cli/__init__.py:44-49 | handling one more option writes it iff it is new or a default, and mirrors it into `global_conf` iff it is a default |
| CkanCli.MergeOptionsAt | ckan/cli/__init__.py:44-49 | after a set of options is handled, each key's presence and value in the configuration and in `global_conf` |
| CkanCli.MergeNothing | ckan/cli/__init__.py:44 | handling no options leaves the configuration as it was |
| CkanCli.ReadMergeAgrees | ckan/cli/__init__.py:42-49 | reading and merging one more file keeps every ordinary option that no `[DEFAULT]` sets equal to the value of the earliest file that sets it |
| CkanCli.ReadDefaultsAgree | ckan/cli/__init__.py:37-40 | after one more read the defaults are those of the reference `DefaultAfter`: the latest `[DEFAULT]` value, else `here` for the last file and `__file__` for the first |
| CkanCli.ReadMainAgrees | ckan/cli/__init__.py:40 | after one more read each `app:main` option holds the latest file's value, and is present iff some file sets it |
| CkanCli.FirstDefaultsAgree | ckan/cli/__init__.py:29-40 | after the constructor's default and the first read, the defaults are those `DefaultAfter` gives for the one-file chain |
| CkanCli.IndexOf | ckan/cli/__init__.py:65 | the index returned holds the first colon of the `use` value; `None` iff there is none |
| CkanCli.SplitUseColons | ckan/cli/__init__.py:65 | unpacking `use.split(':')` into two names succeeds iff the value holds exactly one colon; the parts are the text around it; otherwise the error names the value |
| CkanCli.NextLink | ckan/cli/__init__.py:65-81 | a `get` error is passed on unchanged; otherwise the step succeeds iff the `use` value unpacks into two names, and fails with the unpacking error naming the value; an unpacked value ends the chain (`None`) iff its scheme is not `config` |
| CkanCli.NextLinkIsLink | ckan/cli/__init__.py:64-68 | a followed link comes from a `use` value that starts with `config:` and has no other colon, and leads to `join(dirname(abspath(current)), path)` for the text after `config:` |
| CkanCli.ConfigUseLinks | ckan/cli/__init__.py:65-68 | a `use` value `config:<path>` without another colon is followed to `join(dirname(abspath(current)), path)` |
| CkanCli.SplitSchemeUse | ckan/cli/__init__.py:65 | `<scheme>:<rest>` with no other colon unpacks into the scheme and the rest |
| CkanCli.FollowCases | ckan/cli/__init__.py:64-81 | one loop turn: a parser or unpacking error ends the loop; another scheme (`NextLink` gives `None`) ends it with the state so far; a path already loaded reports the chain plus that path; otherwise the path is appended and read |
| CkanCli.FollowReadCases | ckan/cli/__init__.py:78-79 | after the read, a failed merge ends the loop with its error, and a successful one goes round again from the merged state |
| CkanCli.FollowEndsCycle | ckan/cli/__init__.py:70-75 | a link back to a loaded file is reported as a cycle whose chain extends the files loaded, is linked throughout, and whose last path is its only repetition |
| CkanCli.FirstFileState | ckan/cli/__init__.py:51-62 | after the first file is read and merged, the loop invariant holds for the one-file chain |
| CkanCli.NextFileState | ckan/cli/__init__.py:67-79 | reading and merging a newly linked file keeps the loop invariant for the longer chain: distinct, linked, defaults as `DefaultAfter` gives, `app:main` latest-file-wins, ordinary options earliest-file-wins, defaults mirrored |
| CkanCli.FollowKeepsState | ckan/cli/__init__.py:64-81 | from a state where the invariant holds, the loop ends in a chain that extends the current one and keeps the invariant, or in a cycle report through it |
| CkanCli.ReadKeepsState | ckan/cli/__init__.py:76-79 | the same, once a new link has been appended to `loaded_files` |
| CkanCli.ExtendChain | ckan/cli/__init__.py:76 | appending a path reached by a link keeps the list linked, and keeps it distinct when the path is new |
| CkanCli.LoadChainEnds | ckan/cli/__init__.py:51-85 | every completed load and every reported cycle satisfies the promises of the chain loop, starting from the initial file |
| CkanCli.LoadedFilesDistinct | ckan/cli/__init__.py:62-76 | `loaded_files` starts with the initial file, holds no path twice, and each later entry is reached through a link of the one before |
| CkanCli.CycleReportsRepeatedPath | ckan/cli/__init__.py:70-75 | a circular chain starts with the initial file, holds distinct files up to its last entry, and ends with a path it already holds |
| CkanCli.EarliestFileWins | ckan/cli/__init__.py:44-47 | an ordinary option that no file of the chain sets in `[DEFAULT]` is in the loaded configuration iff some file sets it in `app:main`, with the value of the earliest such file |
| CkanCli.DefaultsLatestFileWins | ckan/cli/__init__.py:45-49 | every parser default of the loaded chain is in the configuration and in `global_conf`, with the latest `app:main` value when a file sets one and the default's own value otherwise |
| CkanCli.HereIsLastDirectory | ckan/cli/__init__.py:38-49 | unless the files set them, `here` is the directory of the last file read and `__file__` the absolute path of the first, both in the configuration and in `global_conf` |
| CkanCli.GlobalConfNeverDefault | ckan/cli/__init__.py:48-49 | a chain that loads has no file setting `global_conf` in `[DEFAULT]` |
| CkanCli.AfterReadDefaults | ckan/cli/__init__.py:38-40 | after a read, a default is present iff it was before, is `here`, or is in the file's `[DEFAULT]`; its value is the file's `[DEFAULT]` value, else the file's directory for `here`, else the old value |
| CkanCli.LinksGrowForever | ckan/cli/__init__.py:64-81 | when every link resolves to a longer path that cannot be read, the loop never ends: every bound runs out |
| CkanCli.FirstLinkGrowsForever | ckan/cli/__init__.py:51-81 | a starting file whose `use` leads to ever longer unreadable paths makes the whole load run out of any bound |
| CkanCli.SpiralNeverEnds | ckan/cli/__init__.py:51-81 | on a concrete host where `a` links to `sub/b`, no bound suffices |
| CkanCli.LinkThenStop | ckan/cli/__init__.py:64-81 | a link to a new file that merges and whose own `use` names another scheme ends the loop loaded, with that file appended to `loaded_files` |
| CkanCli.TwoFileChainLoads | ckan/cli/__init__.py:51-81 | when the first file links to a different readable file whose `use` names another scheme, and neither has `[DEFAULT]`, any bound of one link or more loads exactly those two files, in order |
| CkanCli.TwoFileEarliestWins | ckan/cli/__init__.py:44-47 | in such a two-file chain an ordinary option is set iff either file sets it, with the first file's value when both do |
| CkanCli.PairChainLoads | ckan/cli/__init__.py:51-81 | on a concrete host where `a` (`x = 1`) links to `b` (`use = egg:ckan`, `x = 2`, `y = 3`), the chain loads `a` then `b`, `x` is `1` and `y` is `3` |
| CkanCli.CkanConfigLoader.CreateConfigObject | ckan/cli/__init__.py:51-85 | the method ends in the outcome `LoadChain` defines: on success the configuration, the parser and `loaded_files` are those of the completed chain; otherwise the error is the chain's; the file name and section are unchanged |
| CkanCli.CkanConfigLoader.FollowLink | ckan/cli/__init__.py:65-79 | one turn of the loop does what `Follow` defines: it ends with the parser's or unpacking error, ends the chain on another scheme, reports a repeated path as a cycle, or reads and merges the new file and goes on from there |
| CkanCli.CkanConfigLoader.GetConfig | ckan/cli/__init__.py:87-88 | returns the configuration without changing the loader |
| CkanCli.NewConfigLoader | ckan/cli/__init__.py:24-31 | construction succeeds iff the chain from the stripped name loads, and the loader then holds that chain's configuration |
| CkanCli.FirstExisting | ckan/cli/__init__.py:106-113 | the result is the first default name that exists in the working directory, and `None` only when none does |
| CkanCli.ConfigFilePriority | ckan/cli/__init__.py:95-127 | an explicit path (with `~` expanded, made absolute) wins, then `$CKAN_INI`, then `ckan.ini`, then `development.ini`; the chosen file exists and is not empty, else the matching error is raised; a default name resolving to the empty path gives the "specify the config" error |
| CkanCli.SelectConfigFile | ckan/cli/__init__.py:95-127 | the branches and the loop with its early `break` choose the file `ChooseConfigFile` defines |
| CkanCli.LoadConfig | ckan/cli/__init__.py:95-133 | a failed file choice is reported as it is; otherwise the result is the configuration of the chain loaded from the chosen file, or the chain's error |
| CkanCli.ErrorMessage | ckan/cli/__init__.py:71-127 | the circular-chain message is the fixed text followed by the chain joined with ` -> `; a missing file's message starts with `Config file not found:`, the name and the `(Given by:` line |
| AudioViewPlugin.ConfiguredFormats | ckanext/audioview/plugin.py:23-25 | every format is a non-empty word without whitespace |
| AudioViewPlugin.DefaultFormats | ckanext/audioview/plugin.py:23-25 | without `ckan.preview.audio_formats`, the list is exactly `wav`, `ogg`, `mp3` |
| AudioViewPlugin.ConfiguredWords | ckanext/audioview/plugin.py:23-25 | a configured list of words separated by single spaces is taken word for word |
| AudioViewPlugin.ResourceFormat | ckanext/audioview/plugin.py:38 | a lowered text format has no upper-case letter; a resource without `format` gives the empty string |
| AudioViewPlugin.UpperCaseEntryNeverMatches | ckanext/audioview/plugin.py:38-39 | a format entry with an upper-case letter never equals a resource's lowered format |
| AudioViewPlugin.AudioView.UpdateConfig | ckanext/audioview/plugin.py:21-25 | `formats` becomes the split of the configured string |
| AudioViewPlugin.AudioView.CanView | ckanext/audioview/plugin.py:37-39 | true iff the lowered resource format is one of the formats; a missing `resource`, a non-dict resource or a format that is neither text nor bytes is an error, as is an unset `formats`; once formats are set, a readable format never errors |
| AudioViewPlugin.MissingFormatNotViewable | ckanext/audioview/plugin.py:38 | once formats are configured, a resource without `format` is not viewable |
| AudioViewPlugin.UpperCaseResourceViewable | ckanext/audioview/plugin.py:38-39 | under the default formats, a resource of format `MP3` is viewable |
| AudioViewPlugin.AudioView.Info | ckanext/audioview/plugin.py:27-35 | the name is `audio_view`, the icon is `file-audio-o`, the view is not iframed and is always available, the schema's only key is `audio_url`, and both titles are `Audio` |
| AudioViewPlugin.TemplatesAreConstant | ckanext/audioview/plugin.py:41-45 | both templates are constants, whatever the arguments |
| ExampleValidators.EqualsFortyTwo | ckanext/example_ivalidators/plugin.py:23-26 | the value passes unchanged iff it is 42; otherwise the error is `Invalid('not 42')` |
| ExampleValidators.Negate | ckanext/example_ivalidators/plugin.py:29-30 | an integer is negated; `True` gives `-1` and `False` gives `0`; a value that is neither integer nor boolean raises a `TypeError` |
| ExampleValidators.NegateInvolution | ckanext/example_ivalidators/plugin.py:29-30 | negating an integer twice gives it back |
| ExampleValidators.UnicodePlease | ckanext/example_ivalidators/plugin.py:33-39 | bytes are decoded as UTF-8, and as cp1252 only when UTF-8 fails; when both fail it is an error; text comes back unchanged; any other value converts without error |
| ExampleValidators.UnicodePleaseIdempotent | ckanext/example_ivalidators/plugin.py:33-39 | feeding the result back in changes nothing |
| ExampleValidators.GetValidators | ckanext/example_ivalidators/plugin.py:15-20 | exactly `equals_fortytwo`, `negate` and `unicode_only` are registered, the last bound to `unicode_please` |
| ResourceControllerPlugin.Bump | ckanext/example_iresourcecontroller/plugin.py:16 | a bump adds its key to the counter's keys and no other |
| ResourceControllerPlugin.BumpOnlyItsKey | ckanext/example_iresourcecontroller/plugin.py:15-34 | a hook adds one to its own count and leaves every other count as it was |
| ResourceControllerPlugin.BumpMonotone | ckanext/example_iresourcecontroller/plugin.py:15-34 | no count ever goes down |
| ResourceControllerPlugin.BumpTotal | ckanext/example_iresourcecontroller/plugin.py:15-34 | over distinct keys, a bump raises the total by one iff its key is among them |
| ResourceControllerPlugin.ZeroTotal | ckanext/example_iresourcecontroller/plugin.py:12-13 | an empty counter sums to zero |
| ResourceControllerPlugin.HooksDistinct | ckanext/example_iresourcecontroller/plugin.py:15-34 | the seven hooks write seven different keys |
| ResourceControllerPlugin.ExampleIResourceControllerPlugin.constructor | ckanext/example_iresourcecontroller/plugin.py:12-13 | every count reads 0 and no call has been counted |
| ResourceControllerPlugin.ExampleIResourceControllerPlugin.Increment | ckanext/example_iresourcecontroller/plugin.py:16 | `counter[key] += 1` on the default dictionary; the counts stay non-negative and their sum stays equal to the number of calls |
| ResourceControllerPlugin.ExampleIResourceControllerPlugin.BeforeCreate | ckanext/example_iresourcecontroller/plugin.py:15-16 | bumps `before_create` only, whatever the arguments, and counts one call |
| ResourceControllerPlugin.ExampleIResourceControllerPlugin.AfterCreate | ckanext/example_iresourcecontroller/plugin.py:18-19 | bumps `after_create` only, whatever the arguments, and counts one call |
| ResourceControllerPlugin.ExampleIResourceControllerPlugin.BeforeUpdate | ckanext/example_iresourcecontroller/plugin.py:21-22 | bumps `before_update` only, whatever the arguments, and counts one call |
| ResourceControllerPlugin.ExampleIResourceControllerPlugin.AfterUpdate | ckanext/example_iresourcecontroller/plugin.py:24-25 | bumps `after_update` only, whatever the arguments, and counts one call |
| ResourceControllerPlugin.ExampleIResourceControllerPlugin.BeforeDelete | ckanext/example_iresourcecontroller/plugin.py:27-28 | bumps `before_delete` only, whatever the arguments, and counts one call |
| ResourceControllerPlugin.ExampleIResourceControllerPlugin.AfterDelete | ckanext/example_iresourcecontroller/plugin.py:30-31 | bumps `after_delete` only, whatever the arguments, and counts one call |
| ResourceControllerPlugin.ExampleIResourceControllerPlugin.BeforeShow | ckanext/example_iresourcecontroller/plugin.py:33-34 | bumps `before_show` only, whatever the argument, and counts one call |
| ProfileCommand.OutputFilename | ckan/cli/profile.py:43-45 | the name is `ckan`, then the URL with each `/` and `?` turned into `.` and every other character kept in place, then `.profile`; it is 12 characters longer than the URL and holds no `/` or `?` |
| ProfileCommand.ReplaceIsRedundant | ckan/cli/profile.py:43-45 | the `replace` before the `re.sub` changes nothing in the name |
| ProfileCommand.SeparatorsCollide | ckan/cli/profile.py:43-45 | URLs that differ only in which of `/`, `?` and `.` stand at the same places get the same file |
| ProfileCommand.DataSearchFile | ckan/cli/profile.py:21-25 | `/data/search` is written to `ckan.data.search.profile` |
| ProfileCommand.ProfileStatement | ckan/cli/profile.py:46 | the statement is `profile_url('`, the URL, then `')` |
| ProfileCommand.ProfileStatementInjective | ckan/cli/profile.py:46 | different URLs give different statements |
| ExampleIAuthFunctions.GroupCreate | ckanext/example_iauthfunctions/plugin_v2.py:8-11 | the answer is always a refusal with the message `No one is allowed to create groups` |
| ExampleIAuthFunctions.GroupCreateIgnoresArguments | ckanext/example_iauthfunctions/plugin_v2.py:8-11 | the answer is the same for every context and data dict, including a missing one |
| ExampleIAuthFunctions.GetAuthFunctions | ckanext/example_iauthfunctions/plugin_v2.py:17-18 | the only key is `group_create`, and it refuses every call |

## Left out

- The `ConfigParser` internals are modelled only as far as the loader uses
  them: `[DEFAULT]` sections, section overlay, `options` and `get`. There
  is no `%(here)s` interpolation: `get` returns the raw value. Option
  names are not lower-cased, and files are taken as already parsed.
- Disk reads, `os.path`, `os.environ` and `os.getcwd` are parameters, not
  models. `abspath`, `dirname`, `join` and `expanduser` are uninterpreted,
  and a file exists iff it is in the host's file map.
- Logging, `loggingFileConfig`, `log.debug` of `loaded_files` and
  `error_shout` output are not modelled.
- CkanCli.CkanConfigLoader.CreateConfigObject: its ghost `Fuel` bound must
  suffice. A chain that never ends is not modelled; its reference outcome is
  `OutOfFuel`.
- CkanCli.LoadConfig: same limit. It requires that the chosen file's chain
  ends within the bound. `loggingFileConfig(filename)` can itself raise
  (for a file without a `[formatters]` section, say); that failure is not
  modelled, and a loaded chain is returned.
- CkanCli.NewConfigLoader: same limit. Its ghost `Fuel` bound must suffice
  for the chain from the stripped name.
- CkanCli.CkanConfigLoader.UpdateConfig: when it fails because
  `global_conf` is a default, the partly updated configuration left behind
  is not specified.
- CkanCli.SplitUseColons: the model reports the exception raised by
  unpacking a `use` value without exactly one colon, as `MalformedUse`. It
  does not reproduce that exception's wording beyond the two messages of
  `ErrorMessage`.
- CkanCli.LoadChain: the first entry of `loaded_files` is the stripped name
  as given, not its absolute path. So a relative starting name is not
  recognised when a link comes back to it by its absolute path. That file
  is then read a second time before the cycle is reported. The model keeps
  this behaviour but states no lemma about it.
- CkanCli.CkanConfigLoader.GetConfig: the copy is a value. The model does
  not capture that the nested `global_conf` dictionary is shared between
  the copy and the loader.
- CkanCli.ErrorMessage: the `NoSectionError` and `NoOptionError` texts
  follow `configparser`'s wording, which is not part of this model.
- AudioViewPlugin.ResourceFormat: `lower` is ASCII only. Non-ASCII
  case folding is not modelled.
- AudioViewPlugin.AudioView.UpdateConfig: `add_template_directory` is not
  modelled.
- AudioViewPlugin.AudioView.Info: `p.toolkit._` translation is not
  modelled. The titles are the untranslated string. The schema's
  validators are given by name.
- ExampleValidators.EqualsFortyTwo: floats are not modelled, so
  `equals_fortytwo(42.0)`, which passes in Python because `42.0 == 42`,
  is not captured.
- ExampleValidators.Negate: floats, `Decimal` and other numeric types are
  not modelled. `-True` gives `-1`.
- ExampleValidators.UnicodePlease: the UTF-8 and cp1252 codecs and `str()`
  of other values are abstract functions.
- ProfileCommand: `cProfile`, `pstats`, the test app and the output
  messages are I/O and are not modelled. A URL containing a quote would
  make the profiled statement malformed; the model does not interpret the
  statement.
