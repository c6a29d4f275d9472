# X10 API command translation, modelled in Dafny

This project models the core of the Yombo gateway's X10 API module (`x10api.py`). The module receives
'cmd'/'new' messages for X10 appliance and lamp devices. For each one it does four things:

- It parses the device's address (such as "A3") into a house letter and a unit number.
- It looks up the house, unit and function codes in the X10 protocol tables.
- It stores the resulting `X10Cmd` record in its table of pending commands, `x10cmds`, under the message id.
- When the line interface reports the command done, it computes the device's new status and removes the record.

Modules, one per file:

- `Wrappers` (`wrappers.dfy`): `Option`, `Result` and `Outcome`. Python's `None` and raised exceptions are modelled with these.
- `Ascii` (`ascii.dfy`): the character classes of the address pattern, ASCII upper- and lower-casing, `int()` on a digit run and `str()` of a number.
- `CodeTables` (`code_tables.dfy`):
  - the three protocol tables `houseToX10`, `deviceToX10` and `functionToX10`;
  - `_housecodes` and `_unitcodes`;
  - `deviceTypes`;
  - their lookups, and the facts that the tables are complete and that their codes are permutations.
- `AddressScan` (`address_scan.dfy`):
  - `re.findall("([a-zA-Z])([0-9]*)", address)` as a hand-written scanner `FindAll`. It is proved equal to a reference description, `LetterMatches`: one match per letter, each with the longest digit run after it.
  - The parsing loop of `processNewCmdMsg` as the method `ScanAddress`. It is proved against `ParseAddress`, a statement of the result over the address itself.
- `StatusRule` (`status_rule.dfy`): the status rule of `X10API.cmdDone` over Python's dynamically typed operand, and its correction.
- `X10` (`x10_api.dfy`):
  - the `X10Cmd` record and the message gate;
  - `Translate`, the record that `processNewCmdMsg` builds or the error it raises;
  - the class `X10Api`, whose field `x10cmds` is a `map` that `Message`, `ProcessNewCmdMsg`, `RemoveX10Cmd` and `CmdDone` (the `X10Cmd.cmdDone` of the source) update in place.

The class invariant `Valid()` says two things. Every pending record is stored under its own message id. Its house, unit and function codes are the table entries for its house, unit and upper-cased command.

The model follows what the code does, including where it is lax or silent:

- A command named `MICRO_DIM` or `MICRO_BRIGHTEN` is not rejected. The lookup succeeds with the value `None`, and the record is registered with no function code.
- A second command with an id that is already pending silently replaces the first. Nothing rejects duplicate ids.
- The address is not required to be a single upper-case letter followed by a number. The last letter wins, and a lower-case letter is upper-cased.
- The status rule does not collapse non-numeric results to 0. 'off' and None are passed through unclamped.
- The module keeps no registry of devices by house and unit and does not tell switches from dimmers: it reads only the type id, address and status of the device a message names. A pending command never moves to a failed state: `cmdFailed` has no body.

## Model

| member | source | states |
|---|---|---|
| `Ascii.DigitPrefix` | x10api.py:266 | the greedy `[0-9]*` group: the result is a prefix of the text, made of digits only, and the next character (if any) is not a digit |
| `Ascii.DecimalRoundTrip` | x10api.py:272-275 | `int(str(n)) == n` for every natural number |
| `AddressScan.FindAll` | x10api.py:266-269 | every match the scanner yields is a letter followed by a run of digits |
| `AddressScan.FindAllIsLetterMatches` | x10api.py:266-269 | `findall` yields exactly one match per letter of the address, in order, each with the longest digit run after that letter |
| `AddressScan.NoLettersNoMatches` | x10api.py:266-269 | there are no matches exactly when the address contains no letter |
| `AddressScan.MatchOfLetter` | x10api.py:266-269 | every letter of the address contributes its match |
| `AddressScan.LetterOfMatch` | x10api.py:266-269 | every match comes from a letter of the address |
| `AddressScan.LastLetter` | x10api.py:269-270 | the index found is a letter with no letter after it, or -1 when there is no letter |
| `AddressScan.LastMatchIsLastLetter` | x10api.py:269-272 | the last match, the one whose values survive the loop, is the last letter of the address with its digit run |
| `AddressScan.ParseWithoutLetters` | x10api.py:279-280 | an address without letters is rejected: `addy` is still None when the warning formats it |
| `AddressScan.ParseWithEmptyDigits` | x10api.py:271-272 | in an address longer than one character, any letter without digits after it makes `int('')` raise |
| `AddressScan.ParseWithLastMatch` | x10api.py:269-275 | otherwise the house is the upper-cased letter of the last match, and the unit is its digit value (1 for a one-character address) |
| `AddressScan.ScanAddress` | x10api.py:265-280 | the match loop (last match wins, unit 1 for a one-character address, raise on an empty digit run, reject when there is no match) yields exactly `ParseAddress(address)` |
| `AddressScan.ParseFormattedAddress` | x10api.py:266-275 | a letter followed by the decimal form of a number parses back to that letter, upper-cased, and that number |
| `AddressScan.OneLetterAddress` | x10api.py:271-275 | a one-letter address gives that letter, upper-cased, with unit 1 |
| `CodeTables.HouseCode` | x10api.py:167-183 | the house lookup succeeds exactly for A..P; every code is below 16, and its 'string' is the hex digit of its 'hex' for every house except N |
| `CodeTables.UnitCode` | x10api.py:185-201 | the unit lookup succeeds exactly for 1..16, and unit k carries the entry of the k-th house letter |
| `CodeTables.FunctionCode` | x10api.py:203-221 | exactly MICRO_DIM and MICRO_BRIGHTEN map to None; every other code is below 16; every key is upper case (hence the `.upper()` before the lookup) |
| `CodeTables.HouseCodesArePermutation` | x10api.py:167-183 | the house codes are a permutation of 0x00..0x0F: each house decodes back to itself, each code decodes to a house, and no two houses share a code |
| `CodeTables.HouseCodesInOrder` | x10api.py:223 | `_housecodes` is A..P in order |
| `CodeTables.UnitCodesFollowHouses` | x10api.py:185-201 | unit k has the same entry as the k-th house letter |
| `CodeTables.UnitCodesCoverAll` | x10api.py:185-201 | every code 0x00..0x0F belongs to a unit, namely the unit at the position of the house with that code |
| `CodeTables.UnitCodesDistinct` | x10api.py:185-201 | no two units share a code |
| `CodeTables.FunctionCodesArePermutation` | x10api.py:203-221 | the 16 functions with a code carry pairwise-distinct codes that cover 0x00..0x0F |
| `CodeTables.LoggedCheckMatchesLookups` | x10api.py:279-291 | the check that only logs (`house in _housecodes and number in _unitcodes`) accepts exactly the addresses that both table lookups accept |
| `CodeTables.DeviceTypesAreOneAndTwo` | x10api.py:227-229 | the handled device types are exactly the ids 1 and 2 |
| `StatusRule.Clamp` | x10api.py:343-347 | an integer status is brought into [0, 100] (above to 100, below to 0, unchanged inside); any other status is unchanged |
| `StatusRule.NewStatus` | x10api.py:326-347 | an integer result lies in [0, 100]; the only text result is 'off'; the result is None exactly when the operand is none of 'on', 'off', 'dim', 'bright' |
| `StatusRule.LevelSteps` | x10api.py:328-341 | on gives 100; off gives 'off'; dim gives level-12 and bright gives level+12 where that stays in range; the fallbacks are 88 and 100 when the status is not an integer; dim never raises and bright never lowers a level |
| `StatusRule.DimBrightInverse` | x10api.py:332-341 | within [12, 88], bright undoes dim and dim undoes bright (50 to 38 and back) |
| `StatusRule.RepeatedDimReachesZero` | x10api.py:332-347 | dimming a level n at least n/12 times ends at exactly 0 |
| `StatusRule.RepeatedBrightReachesFull` | x10api.py:337-347 | brightening a level n at least (100-n)/12 times ends at exactly 100 |
| `StatusRule.NonStrMatchesNothing` | x10api.py:324-341 | an operand that is not a `str` matches no branch, so the status becomes None |
| `StatusRule.BrightenIgnored` | x10api.py:337 | as written, "brighten" (the table's name for the step) matches no branch |
| `StatusRule.IntendedNewStatus` | x10api.py:326-347 | the corrected rule: same bounds, same as the rule as written except that "brighten" is the bright step |
| `StatusRule.IntendedBrighten` | x10api.py:337-347 | with the correction, brighten raises a level by 12 up to 100, with 100 as the fallback |
| `X10.Gate` | x10api.py:252-257 | a message is processed exactly when it is 'cmd'/'new' and its device exists with type id 1 or 2; it fails exactly when it is 'cmd'/'new' and its device is unknown |
| `X10.Translate` | x10api.py:259-297 | a built record carries the table codes of its house, unit and upper-cased command, the message id, the device id, the command as given and the creation time, and its address is the parsed device address; a unit error implies the house was valid, and a function error implies house and unit were valid |
| `X10.TranslateSucceedsIff` | x10api.py:279-297 | a record is built exactly when the device exists, its address parses to a house in A..P and a unit in 1..16, and the upper-cased command is a function-table key |
| `X10.TranslateFormattedAddress` | x10api.py:265-292 | a device addressed "HU" (a letter of either case and a unit 1..16) gets the codes of the upper-cased house and of the unit |
| `X10.DoneStatusAsWritten` | x10api.py:317-349 | `cmdDone` as written: fails exactly when the device is unknown |
| `X10.DoneStatus` | x10api.py:317-349 | `cmdDone` with the correction: fails exactly when the device is unknown; an integer status lies in [0, 100] |
| `X10.DoneStatusAsWrittenIsNone` | x10api.py:324-349 | as written, every completed command sets its device's status to None |
| `X10.DoneStatusByFunction` | x10api.py:324-347 | with the correction, completing ON gives 100, OFF gives 'off', DIM and BRIGHTEN step the level, and every other function gives None, whatever the case of the command as given |
| `X10.BrightNeverRegistered` | x10api.py:337 | no registered command has the lower-case name 'bright', so the bright branch as written is dead |
| `X10.DimScenario` | x10api.py:252-347 | "dim" for a lamp at "B5" with status 100 is processed and registered with the codes 0x0E, 0x01 and 0x04; completing it gives None as written and 88 with the correction |
| `X10.X10Api.constructor` | x10api.py:156-166 | the pending table starts empty |
| `X10.X10Api.Message` | x10api.py:252-257 | ignored messages change nothing; an unknown device fails; a processed message registers exactly what `Translate` builds |
| `X10.X10Api.ProcessNewCmdMsg` | x10api.py:259-299 | the result is `Translate`'s; on success `x10cmds` gains exactly `msgID -> record`, replacing any record under that id and leaving the other ids alone; on failure `x10cmds` is unchanged; `Valid()` is kept |
| `X10.X10Api.RemoveX10Cmd` | x10api.py:387-392 | exactly the id of the record is removed and the other entries are untouched; removing an absent id fails; for a record that is pending, the removal succeeds and drops exactly the id it is stored under (by `Valid()`) |
| `X10.X10Api.CmdDone` | x10api.py:120-130 | the status is computed first; if the device is unknown, that error propagates and the record stays; otherwise the id is no longer pending, and the result is the new status (by the corrected rule `DoneStatus`), or an error when the id was not pending; completing a pending record returns the status and drops exactly the id it is stored under |
| `X10.Lifecycle` | x10api.py:120-130 | after registering a command and completing it, the id is no longer pending and the status (by the corrected rule `DoneStatus`) is returned; a second completion fails |

## Left out

- Host framework: `getComponent`, `getInterfaceModule`, `getDevices`, `get_dbtools` and the module lifecycle (`load`, `start`, `stop`, `unload`) are foreign code. The devices are given to the constructor as a map from id to type id, address and current status.
- `X10.X10Api.CmdDone`: it returns the new status rather than applying it with the device's `setStatus`. The reply message, `replmsg.send()` and `sendStatus` are left out. When the id is no longer pending, the source has already applied the status and replied before `del` raises; the model returns only the error.
- `X10.X10Api.CmdDone`: the status it returns is computed by the corrected rule `X10.DoneStatus` of Findings row 1. As written, x10api.py:324 compares the command record with strings, and every completion sets the status to None (`X10.DoneStatusAsWritten`, `X10.DoneStatusAsWrittenIsNone`); the lamp at "B5" with status 100 and "dim" gets None, not the 88 the model returns.
- `X10.Lifecycle`: its first completion's status is the corrected `X10.DoneStatus`, for the same reason; as written it is None whenever the device exists.
- `X10.X10Api.ProcessNewCmdMsg`: the call `interfaceModule.sendX10Cmd(msgID)` after the insert is left out (foreign code).
- Logging: all `logger` calls, and the `dump` helper, which only feeds them.
- The clock: `created = int(time.time())` becomes a parameter.
- Stubs with no behaviour: `sendCmdToInterface`, `statusReceived`, `cmdPending` and `cmdFailed` on both classes.
- `X10Cmd` fields that nothing in the module sets beyond their initial None or `{}`: `x10extended`, `x10value`, `chain`, `interfaceResult` and `commandResult`. Also left out: the back pointer to the api object and `originalMessage`.
- Messages are records that always carry a payload with `deviceid` and `cmd`. The KeyError of a malformed payload is not modelled.
- Upper- and lower-casing are ASCII only. Python 3's `str.upper` also maps some non-ASCII characters (such as 'ß' to "SS"), which could turn a non-ASCII name into a table key.
- A device status is one of three kinds: an integer, a text or None. Other Python types (float, bool) are not distinguished. In the rule they behave like a text, because `type(x) is int` is false for them. Only `status[0]` is read.
- The statement `address = address + str(1)` at x10api.py:275 changes only a local copy after the matches are computed. It has no effect and is not modelled.
- The regular-expression engine is replaced by a hand-written scanner for "letter followed by the longest digit run".

## Findings

| source | as written | input that shows it | evidently intended | confidence | as-written member | corrected member |
|---|---|---|---|---|---|---|
| x10api.py:324 | `tempcmd` is bound to the `x10command` dict, which never equals the strings 'on', 'off', 'dim' or 'bright'; every completed command therefore sets its device's status to None | a lamp at "B5" with status 100 and the command "dim": the status becomes None instead of 88 | compare the name of the command as given (`x10command['origcmd']`), lower-cased | high, not executed | `X10.DoneStatusAsWrittenIsNone` | `X10.DoneStatus` |
| x10api.py:337 | the bright branch tests 'bright', but the function table only accepts BRIGHTEN (BRIGHT is not a key), so the branch can never fire for a registered command | the command "brighten" on a lamp at status 50: the status becomes None instead of 62 | treat 'brighten' as the bright step | medium, not executed | `StatusRule.BrightenIgnored` | `StatusRule.IntendedNewStatus` |
