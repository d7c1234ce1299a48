# Platina regression-test modules and Go helpers, modelled in Dafny

This project models the decision logic of the Platina `go` repository's
Ansible regression-test modules (`ansible/regtest/library/...`) and of a
handful of its small Go packet and data-structure helpers.

Every Ansible test module follows one pattern, modelled once in `Recorder`
(`recorder.dfy`) and `OrderedDict` (`ordered_dict.dfy`):

- `run_cli` runs a command and returns its standard output with trailing
  whitespace stripped, else its stripped standard error, else `None`. The
  processes are an oracle, `Env.world`: it maps the commands started so far
  and the new command to the two output streams.
- `execute_commands` runs a command, runs `date +%Y%m%d%T` for a time stamp,
  and stores the output in the global `HASH_DICT` under
  `"<switch> <time stamp> <command>"`. Some modules truncate the stored value
  to 512 characters. Some suppress commands and record `None` instead.
- `HASH_DICT` is an `OrderedDict`: a sequence of pairs in which re-assigning
  a key keeps its position.
- `RESULT_STATUS` starts true and only ever becomes false. The
  `failure_summary` narrative only grows by concatenation.
- `main` stores `result.status` and writes each entry to the log as the key,
  `str(value)` and a blank line.

A module run is a `Session` object (a Dafny `class`) whose methods mirror
the module's functions and loops. Each method is proved against a pure
specification: the module's `Script`, a sequence of steps (`Op`) folded by
`Steps`. The lemmas then state, for every module:

- which commands are started, and in which order;
- which keys the dictionary ends with, and in which order;
- when the verdict fails, and which lines the narrative holds.

The Go helpers are modelled directly:

- `Ip4`: IPv4 addresses, the 20-byte header and its checksum.
- `Ip4Flow`: flows.
- `Udp`: the UDP header.
- `Fou`: the FOU port set.
- `Vec`: the growable interrupt-handler vector.
- `Rpc`: the redis `Hset` speed guard.
- `Docker`: the docker test helpers.
- `PidFile`: pid-file paths.
- `Nvram`: the nvram scan.

Shared helpers are `PyStr` (Python string operations), `PyList`, `Bytes` and
`Wrappers`.

## Model

| member | source | states |
|---|---|---|
| Recorder.AnswerNone | ansible/regtest/library/testcases/port_provision/test_port_links.py:113-129 | `run_cli` returns `None` exactly when both stdout and stderr are empty |
| Recorder.AnswerPrefersStdout | ansible/regtest/library/testcases/port_provision/test_port_links.py:123-127 | non-empty stdout is returned right-stripped, whatever stderr holds |
| Recorder.AnswerBlank | ansible/regtest/library/testcases/port_provision/test_port_links.py:124-125 | whitespace-only stdout gives the empty string, not `None` |
| Recorder.KeyHasSpace | ansible/regtest/library/testcases/port_provision/test_port_links.py:144-145 | a record key `"<switch> <time> <cmd>"` always has a space, so it never equals a plain key such as `result.status` |
| Recorder.KeyInjective | ansible/regtest/library/testcases/port_provision/test_port_links.py:144-145 | with space-free time stamps, records of different commands get different keys |
| Recorder.StoredAscii | ansible/regtest/library/testcases/master_port_provision/set_configs.py:174-179 | on an ASCII output, where characters are the Python 2 bytes, the stored value is the first 512 bytes when longer and the whole output otherwise |
| Recorder.StoredPrefix | ansible/regtest/library/testcases/master_port_provision/set_configs.py:174-179 | the stored value is `None` iff the output is; it is a prefix of the output, the whole output when not truncating or short enough, else at most 512 characters |
| Recorder.ExecSpec | ansible/regtest/library/testcases/port_provision/test_port_links.py:132-149 | `execute_commands` starts the command then `date`, enters exactly one key (switch, time, command) holding the output, leaves the status alone and returns the output |
| Recorder.ExecSuppressed | ansible/regtest/library/testcases/bgp/test_bgp_peering_if_down.py:127-136 | a suppressed command is recorded as `None` and never started; only `date` runs |
| Recorder.StepGrows | ansible/regtest/library/testcases/port_provision/test_port_links.py:183-188 | one step never sets the status back to true and only extends the narrative, the history and the keys |
| Recorder.StepsGrow | ansible/regtest/library/testcases/port_provision/test_port_links.py:152-321 | a whole module run only moves forward in the same way |
| Recorder.StepSpec | ansible/regtest/library/testcases/port_provision/test_port_links.py:237-247 | one step starts its trace, appends its verdict's line, clears the status iff the verdict fails, enters the keys it writes |
| Recorder.StepsSpec | ansible/regtest/library/testcases/port_provision/test_port_links.py:152-321 | a script starts its trace, its narrative is its verdicts' lines in order, the status survives iff no verdict fails, and its keys enter in first-insertion order |
| Recorder.VerdictAt | ansible/regtest/library/testcases/port_provision/test_port_links.py:152-321 | the i-th verdict judges what the i-th command returns after the processes started before it |
| Recorder.ExecJudged | ansible/regtest/library/testcases/port_provision/test_port_links.py:240-245 | a checked record is the record followed by the test of its output |
| Recorder.FirstWriteStays | ansible/regtest/library/testcases/bgp/test_bgp_peering_if_down.py:184-208 | the first assignment to `result.detail` appends it; later re-assignments keep its position |
| Recorder.DetailThenStatus | ansible/regtest/library/testcases/upgrade/goes_upgrade_downgrade.py:281-284 | a module that assigns a new `result.detail` last and then stores the status lists those two keys last, in that order |
| Recorder.StatusBeforeDetail | ansible/regtest/library/testcases/issues/verify_fib_routes.py:158-159 | a module that stores the status first and then `result.detail` lists those two last in that order, with the narrative in `result.detail` |
| Recorder.ClosingKeys | ansible/regtest/library/testcases/issues/verify_fib_routes.py:158-159 | the keys of such a module are the body's keys followed by `result.status` and `result.detail` |
| Recorder.NotWritten | ansible/regtest/library/testcases/port_provision/test_port_links.py:144-147 | a record of a command cannot clash with the keys of a script that never records that command |
| Recorder.PlainNotWritten | ansible/regtest/library/testcases/port_provision/test_port_links.py:321-350 | a space-free key is written only by an assignment to it |
| Recorder.ClosingOrder | ansible/regtest/library/testcases/port_provision/test_port_links.py:321-350 | a module ending with `result.detail`, a `goes status` record and `result.status` lists those three entries last, in that order |
| Recorder.DetailKept | ansible/regtest/library/testcases/port_provision/test_port_links.py:321-324 | recording `goes status` after assigning `result.detail` leaves the stored narrative alone |
| Recorder.ClosingDetail | ansible/regtest/library/testcases/port_provision/test_port_links.py:321-324 | the same after any module body |
| Recorder.RecordedNone | ansible/regtest/library/core/verify_links.py:74-91 | a script of `run_cli` calls only records nothing |
| Recorder.RecordedAll | ansible/regtest/library/testcases/port_provision/test_port_links.py:132-149 | a script of records records its commands, in order |
| Recorder.RecordedClosing | ansible/regtest/library/testcases/port_provision/test_port_links.py:321-324 | the closing assignment and `goes status` record only `goes status` |
| Recorder.LinesStep | ansible/regtest/library/testcases/port_provision/test_port_links.py:237-245 | one more item extends the narrative by its line exactly when its check fails |
| Recorder.TextVerdict | ansible/regtest/library/testcases/port_provision/test_port_links.py:241-245 | concluding with a narrative text clears the status iff the text is non-empty, and appends it |
| Recorder.LinesEmpty | ansible/regtest/library/testcases/port_provision/test_port_links.py:237-245 | the narrative of a loop is empty exactly when every item passed |
| Recorder.LinesCount | ansible/regtest/library/testcases/port_provision/test_port_links.py:237-245 | each failing item adds its own copy of the line |
| Recorder.ProbedEmpty | ansible/regtest/library/core/verify_links.py:113-121 | a probing loop's narrative is empty exactly when no item adds anything |
| Recorder.StepsSilent | ansible/regtest/library/testcases/bgp/test_bgp_peering_if_down.py:127-136 | steps that judge nothing leave the status and the narrative as they were |
| Recorder.OneCheck | ansible/regtest/library/testcases/bgp/test_bgp_peering_loopback.py:150-183 | a script with one check among silent steps keeps its status iff that check passes, and its narrative is that check's line |
| Recorder.LogRoundTrip | ansible/regtest/library/testcases/port_provision/test_port_links.py:356-361 | the log has three lines per entry and gives back every key and `str(value)` in order |
| Recorder.LogTextAppend | ansible/regtest/library/testcases/port_provision/test_port_links.py:356-361 | a new last entry adds its key, value and a blank line to the end of the log |
| Recorder.WriteLog | ansible/regtest/library/testcases/port_provision/test_port_links.py:355-363 | the log-writing loop produces exactly the log text of the dictionary |
| Recorder.Session.constructor | ansible/regtest/library/testcases/port_provision/test_port_links.py:109-110 | a run starts with an empty dictionary, status true and no process started |
| Recorder.Session.RunCli | ansible/regtest/library/testcases/port_provision/test_port_links.py:113-129 | `run_cli`: starts the command and returns what the oracle's streams give |
| Recorder.Session.Execute | ansible/regtest/library/testcases/port_provision/test_port_links.py:132-149 | `execute_commands`: the new state and output are those of the specification `ExecF`; an answered command returns output |
| Recorder.Session.Check | ansible/regtest/library/testcases/port_provision/test_port_links.py:240-245 | a record followed by its test, as one step of the specification |
| Recorder.Session.CheckRaw | ansible/regtest/library/core/verify_links.py:113-121 | the same for an unrecorded `run_cli` call |
| Recorder.Session.Run | ansible/regtest/library/testcases/port_provision/test_port_links.py:152-321 | running a straight script leaves exactly the state the specification `Steps` gives |
| Recorder.Session.Probe | ansible/regtest/library/core/verify_links.py:113-121 | the probing loop returns what the specification `Probed` gives, starts one command per item, and leaves the dictionary and status alone |
| Recorder.Session.Store | ansible/regtest/library/testcases/port_provision/test_port_links.py:321 | `HASH_DICT[key] = value` |
| Recorder.Session.Fail | ansible/regtest/library/testcases/port_provision/test_port_links.py:242 | `RESULT_STATUS = False` |
| Recorder.Session.StoreStatus | ansible/regtest/library/testcases/port_provision/test_port_links.py:350 | `result.status` is 'Passed' iff the status is true |
| OrderedDict.Keys | ansible/regtest/library/testcases/port_provision/test_port_links.py:356 | the keys in iteration order, one per entry |
| OrderedDict.PutNew | ansible/regtest/library/testcases/port_provision/test_port_links.py:147 | assigning a new key appends it |
| OrderedDict.PutExisting | ansible/regtest/library/testcases/port_provision/test_port_links.py:147 | re-assigning a key keeps its position and changes only its value |
| OrderedDict.PutKeys | ansible/regtest/library/testcases/port_provision/test_port_links.py:147 | an assignment never reorders or drops keys; a new key goes last |
| OrderedDict.PutGet | ansible/regtest/library/testcases/port_provision/test_port_links.py:147 | after `d[k] = v`, `d[k]` is `v` and every other key reads as before |
| OrderedDict.PutUnique | ansible/regtest/library/testcases/port_provision/test_port_links.py:147 | assignments keep the keys unique |
| OrderedDict.EnterAllFresh | ansible/regtest/library/testcases/port_provision/test_port_links.py:147 | keys that are new and distinct are appended in order |
| OrderedDict.EnterAllMembers | ansible/regtest/library/testcases/port_provision/test_port_links.py:147 | every entered key is present, and nothing else is added |
| OrderedDict.EnterAllTail | ansible/regtest/library/testcases/port_provision/test_port_links.py:321-350 | keys new when entered end up last, in order |
| PortLinks.GridFlat | ansible/regtest/library/testcases/port_provision/test_port_links.py:177-226 | the nested loops over eths and subports are one loop over the (eth, subport) pairs, sharing one counter |
| PortLinks.AddressesAt | ansible/regtest/library/testcases/port_provision/test_port_links.py:218-226 | the n-th address command configures the n-th pair with 192.168.<n + 1>.<last octet> and netmask 255.255.255.0 |
| PortLinks.MediaLineNames | ansible/regtest/library/testcases/port_provision/test_port_links.py:184-189 | the media failure line names the switch and the port, and says 'copper' |
| PortLinks.SpeedLineNames | ansible/regtest/library/testcases/port_provision/test_port_links.py:197-204 | the speed failure line names the switch and the port |
| PortLinks.FecLineNames | ansible/regtest/library/testcases/port_provision/test_port_links.py:211-216 | the fec failure line names the switch and the port |
| PortLinks.LinkLineNames | ansible/regtest/library/testcases/port_provision/test_port_links.py:242-247 | the link failure line names the switch and the port |
| PortLinks.CellVerdicts | ansible/regtest/library/testcases/port_provision/test_port_links.py:177-247 | every check of a pair passes or fails with one newline-terminated line naming the switch and subport, and never only notes something |
| PortLinks.SpeedAcceptsPieces | ansible/regtest/library/testcases/port_provision/test_port_links.py:195-198 | the speed test is `out not in check_speed`: for '100g' the outputs '', '10' and '100g' all pass |
| PortLinks.SpeedRejectsReport | ansible/regtest/library/testcases/port_provision/test_port_links.py:195-198 | while a full report such as '100g full' fails |
| PortLinks.AutoSpeed | ansible/regtest/library/testcases/port_provision/test_port_links.py:196 | 'auto' and 'auto10g' expect a piece of 'autoneg': 'auto' passes and 'auto10g' fails |
| PortLinks.BodyAvoids | ansible/regtest/library/testcases/port_provision/test_port_links.py:174-319 | before the closing 'goes status', only per-port commands are recorded |
| PortLinks.EntryOrder | ansible/regtest/library/testcases/port_provision/test_port_links.py:321-350 | the log ends with `result.detail`, the 'goes status' record and `result.status`, in that order |
| PortLinks.OtherSpeedRecorded | ansible/regtest/library/testcases/port_provision/test_port_links.py:174-324 | for a speed of neither family, only 'goes status' is recorded |
| PortLinks.OtherSpeedDetail | ansible/regtest/library/testcases/port_provision/test_port_links.py:321 | and `result.detail` holds the empty narrative |
| PortLinks.BodyIs | ansible/regtest/library/testcases/port_provision/test_port_links.py:174-249 | the 4-subport family always sets addresses; the other family only with `two_lanes` |
| PortLinks.PassesSteps | ansible/regtest/library/testcases/port_provision/test_port_links.py:177-247 | the checks, addresses, link-up and link passes in sequence make up the speed branch |
| PortLinks.RunCell | ansible/regtest/library/testcases/port_provision/test_port_links.py:177-216 | one body of the loops for a pair ends in the state the specification gives |
| PortLinks.RunRow | ansible/regtest/library/testcases/port_provision/test_port_links.py:178-226 | the inner loop over the subports ends in the state the specification gives |
| PortLinks.RowSnocStep | ansible/regtest/library/testcases/port_provision/test_port_links.py:219-226 | the pairs done so far grow by one body at a time, with the counter one past the pairs before it |
| PortLinks.RunGrid | ansible/regtest/library/testcases/port_provision/test_port_links.py:177-226 | the nested loops of one pass end in the state the specification gives |
| PortLinks.RunPasses | ansible/regtest/library/testcases/port_provision/test_port_links.py:177-247 | one speed branch's four passes end in the state the specification gives |
| PortLinks.VerifyPortLinks | ansible/regtest/library/testcases/port_provision/test_port_links.py:152-324 | `verify_port_links` leaves exactly the state of its script |
| PortLinks.RunModule | ansible/regtest/library/testcases/port_provision/test_port_links.py:327-363 | `main` stores the verdict after the script, and the log text is that of the final dictionary |
| PortChecks.PairsAt | ansible/regtest/library/testcases/port_provision/set_configs.py:237-238 | pair number len(ports) * i + j is eth i with subport j |
| PortChecks.PassRecords | ansible/regtest/library/testcases/port_provision/set_configs.py:237-240 | a pass records one `goes hget` per pair, in pair order |
| PortChecks.VerifyRecords | ansible/regtest/library/testcases/port_provision/set_configs.py:237-282 | `verify_port_links` records the link, then the media, fec and speed reads of every pair |
| PortChecks.ChecksSpec | ansible/regtest/library/testcases/port_provision/set_configs.py:237-282 | every check fails iff its expected text is missing from the output; the speed check expects 'autoneg' when autonegotiation is on |
| PortChecks.LinesName | ansible/regtest/library/testcases/port_provision/set_configs.py:243-282 | every failure line starts with the switch, names the subport, and ends with a newline |
| SetConfigs.Eths | ansible/regtest/library/testcases/port_provision/set_configs.py:173-177 | one eth per config line |
| SetConfigs.EthsOfLines | ansible/regtest/library/testcases/port_provision/set_configs.py:175-177 | the eths are the second words of the config lines, in order |
| SetConfigs.SettingsAt | ansible/regtest/library/testcases/port_provision/set_configs.py:187-193 | for every pair the fec setting is recorded just before its media setting |
| SetConfigs.RecordOrder | ansible/regtest/library/testcases/port_provision/set_configs.py:187-202 | the records are the settings, then the link, media, fec and speed reads of every pair, then 'goes status' |
| SetConfigs.SetSwitch | ansible/regtest/library/testcases/port_provision/set_configs.py:159-203 | `set_switch` leaves exactly the state of its script |
| SetConfigs.RunModule | ansible/regtest/library/testcases/port_provision/set_configs.py:287-324 | `main` stores the verdict after the script |
| MasterSetConfigs.SpineOctet | ansible/regtest/library/testcases/master_port_provision/set_configs.py:204-206 | a switch in the spine list takes its octet from the spine octets, at its first position there |
| MasterSetConfigs.LeafOctet | ansible/regtest/library/testcases/master_port_provision/set_configs.py:207-209 | any other switch takes it from the leaf octets |
| MasterSetConfigs.SubportChoice | ansible/regtest/library/testcases/master_port_provision/set_configs.py:211-217 | four subports 1-4; with `is_lane2_count2` 1 and 3; without subports only '1' |
| MasterSetConfigs.ProvisionUnrecorded | ansible/regtest/library/testcases/master_port_provision/set_configs.py:223-235 | bringing a pair up takes four `run_cli` calls, none of them recorded |
| MasterSetConfigs.SpeedDigitsDrops | ansible/regtest/library/testcases/master_port_provision/set_configs.py:231 | `speed[:-1]` drops the unit letter, so '100g' gives speed 100000 |
| MasterSetConfigs.FecUnrecorded | ansible/regtest/library/testcases/master_port_provision/set_configs.py:239-243 | the fec settings go through `run_cli` and are not recorded |
| MasterSetConfigs.RecordOrder | ansible/regtest/library/testcases/master_port_provision/set_configs.py:219-251 | the records are goes stop, rmmod, modprobe, goes start, the reads of every pair, then goes status |
| MasterSetConfigs.SetSwitch | ansible/regtest/library/testcases/master_port_provision/set_configs.py:184-252 | `set_switch` leaves exactly the state of its script |
| MasterSetConfigs.RunModule | ansible/regtest/library/testcases/master_port_provision/set_configs.py:331-371 | `main` stores the verdict after the script |
| BgpPeeringIfDown.Neighbors | ansible/regtest/library/testcases/bgp/test_bgp_peering_if_down.py:157-163 | one (IP, AS) pair per stripped config line naming 'neighbor' and 'remote-as', taken from its second and fourth words |
| BgpPeeringIfDown.Missing | ansible/regtest/library/testcases/bgp/test_bgp_peering_if_down.py:164 | at most one entry per neighbour: those whose IP or AS the output lacks |
| BgpPeeringIfDown.Toggle | ansible/regtest/library/testcases/bgp/test_bgp_peering_if_down.py:257-261 | on a leaf one command per listed interface; elsewhere none |
| BgpPeeringIfDown.SetupHeld | ansible/regtest/library/testcases/bgp/test_bgp_peering_if_down.py:127-128 | the dummy interface commands and the service restart are held back: recorded as `None`, never run |
| BgpPeeringIfDown.SetupTrace | ansible/regtest/library/testcases/bgp/test_bgp_peering_if_down.py:231-244 | so the set-up starts only time stamps, the running configuration and the status query |
| BgpPeeringIfDown.ScanSpec | ansible/regtest/library/testcases/bgp/test_bgp_peering_if_down.py:157-169 | the neighbour count is the number of neighbour lines, and the narrative has one line per missing neighbour |
| BgpPeeringIfDown.MissingNone | ansible/regtest/library/testcases/bgp/test_bgp_peering_if_down.py:164 | no neighbour is missing exactly when every IP and AS occurs in the output |
| BgpPeeringIfDown.NeighborJudgeSpec | ansible/regtest/library/testcases/bgp/test_bgp_peering_if_down.py:141-184 | the check fails iff the output is `None` or empty, a neighbour is missing, or the count of 'BGP state = Established' differs from the number of neighbours; its lines are one per missing neighbour, then the Established line |
| BgpPeeringIfDown.NeighborJudgeNone | ansible/regtest/library/testcases/bgp/test_bgp_peering_if_down.py:177-182 | with no output the check fails with one line that has no closing newline |
| BgpPeeringIfDown.PingTarget | ansible/regtest/library/testcases/bgp/test_bgp_peering_if_down.py:224-228 | a leaf pings the first other leaf at 192.168.<last two characters>.1; the ping passes iff '3 received' is in the output |
| BgpPeeringIfDown.ToggleCmds | ansible/regtest/library/testcases/bgp/test_bgp_peering_if_down.py:257-278 | only a leaf toggles its interfaces, each listed one in order, as `ifconfig eth-<eth>-1 <state>` |
| BgpPeeringIfDown.DetailPosition | ansible/regtest/library/testcases/bgp/test_bgp_peering_if_down.py:148-208 | `result.detail` is first assigned after the first neighbour check and stays at that position of the log however often it is re-assigned |
| BgpPeeringIfDown.VerifyBgpPeeringInterfaceDown | ansible/regtest/library/testcases/bgp/test_bgp_peering_if_down.py:211-291 | the run leaves exactly the state of its script |
| BgpPeeringIfDown.RunModule | ansible/regtest/library/testcases/bgp/test_bgp_peering_if_down.py:294-327 | `main` stores the verdict after the script; the log is that of the final dictionary |
| BgpAuthentication.Records | ansible/regtest/library/testcases/bgp/test_bgp_authentication.py:208-212 | one record per command, in order, whose output nothing looks at |
| BgpAuthentication.HeldCommands | ansible/regtest/library/testcases/bgp/test_bgp_authentication.py:116 | the restart is held back in every run; in a dry run every command is |
| BgpAuthentication.HeldStep | ansible/regtest/library/testcases/bgp/test_bgp_authentication.py:116-125 | a held record starts only `date`, keeps the verdict and the narrative, and writes its key |
| BgpAuthentication.HeldRecords | ansible/regtest/library/testcases/bgp/test_bgp_authentication.py:208-212 | when every command is held, a run of records starts one `date` per record and keeps the verdict and narrative |
| BgpAuthentication.HeldWritten | ansible/regtest/library/testcases/bgp/test_bgp_authentication.py:208-212 | and writes one key per record, in order |
| BgpAuthentication.StampedDistinct | ansible/regtest/library/testcases/bgp/test_bgp_authentication.py:124-125 | with a `date` that prints no space, records of distinct commands get distinct keys |
| BgpAuthentication.DryRunSpec | ansible/regtest/library/testcases/bgp/test_bgp_authentication.py:204-219 | a dry run from an empty dictionary starts only five `date` calls, fails nothing and lists exactly five keys, one per command in order, the third being 'pause for 35 secs'; no `result.status` |
| BgpAuthentication.Verdict | ansible/regtest/library/testcases/bgp/test_bgp_authentication.py:130-181 | a real run keeps its verdict iff the neighbour check passes on what the neighbour query returns after the first three records |
| BgpAuthentication.VerifyBgpAuthentication | ansible/regtest/library/testcases/bgp/test_bgp_authentication.py:130-184 | the run leaves exactly the state of its script |
| BgpAuthentication.DryRun | ansible/regtest/library/testcases/bgp/test_bgp_authentication.py:204-216 | the dry run records the five commands and returns the dictionary's keys |
| BgpAuthentication.RunModule | ansible/regtest/library/testcases/bgp/test_bgp_authentication.py:187-244 | a dry run returns the keys; a real run stores the verdict and writes the log |
| BgpStatePropagation.Toggle | ansible/regtest/library/testcases/bgp/test_bgp_state_propagation.py:206-210 | every listed interface, stripped, brought to the state in list order |
| BgpStatePropagation.RouteSpec | ansible/regtest/library/testcases/bgp/test_bgp_state_propagation.py:141-167 | a route check fails without output; otherwise it fails iff the route's presence differs from what is expected |
| BgpStatePropagation.PresentAbsentExclusive | ansible/regtest/library/testcases/bgp/test_bgp_state_propagation.py:149-161 | on the same output, exactly one of the present and the absent checks fails |
| BgpStatePropagation.ObserverScript | ansible/regtest/library/testcases/bgp/test_bgp_state_propagation.py:195-233 | every other switch checks the route present, withdrawn, then present again, after the services |
| BgpStatePropagation.PropagatorScript | ansible/regtest/library/testcases/bgp/test_bgp_state_propagation.py:184-224 | the propagating switch adds the dummy interface, then toggles its interfaces down and up |
| BgpStatePropagation.TogglesAt | ansible/regtest/library/testcases/bgp/test_bgp_state_propagation.py:206-224 | the propagating switch brings interface i down at position 5 + i and up at 5 + n + i |
| BgpStatePropagation.PropagatorSilent | ansible/regtest/library/testcases/bgp/test_bgp_state_propagation.py:184-236 | the propagating switch checks nothing: its status and narrative stay as they were |
| BgpStatePropagation.HeldCommands | ansible/regtest/library/testcases/bgp/test_bgp_state_propagation.py:115-117 | the dummy set-up and the restart are recorded without being run |
| BgpStatePropagation.VerifyStatePropagation | ansible/regtest/library/testcases/bgp/test_bgp_state_propagation.py:172-236 | the run leaves exactly the state of its script |
| BgpStatePropagation.RunModule | ansible/regtest/library/testcases/bgp/test_bgp_state_propagation.py:239-270 | `main` stores the verdict after the script |
| BgpPeeringLoopback.HeadTrace | ansible/regtest/library/testcases/bgp/test_bgp_peering_loopback.py:109-149 | the dummy commands and the restart are recorded as `None` without being run; the set-up starts only time stamps, the running configuration and the status query |
| BgpPeeringLoopback.Verdict | ansible/regtest/library/testcases/bgp/test_bgp_peering_loopback.py:150-183 | the run keeps its status iff the neighbour check passes on the neighbour query's output; its narrative is that check's lines |
| BgpPeeringLoopback.Detail | ansible/regtest/library/testcases/bgp/test_bgp_peering_loopback.py:183-186 | `result.detail` holds the narrative, even after the closing status query |
| BgpPeeringLoopback.VerifyBgpPeeringLoopback | ansible/regtest/library/testcases/bgp/test_bgp_peering_loopback.py:123-186 | the run leaves exactly the state of its script |
| BgpPeeringLoopback.RunModule | ansible/regtest/library/testcases/bgp/test_bgp_peering_loopback.py:189-219 | `main` stores the verdict after the script; the log text is that of the final dictionary |
| OspfIntervals.VerifyOspfIntervals | ansible/regtest/library/testcases/ospf/test_ospf_intervals.py:139-254 | the run leaves exactly the state of its script: set-up, initial neighbour check, the interval cycle on the switch under test, `result.detail`, goes status |
| OspfIntervals.RunModule | ansible/regtest/library/testcases/ospf/test_ospf_intervals.py:257-301 | `main` stores the verdict after the script; the log text is that of the final dictionary |
| OspfIntervals.RestartHeld | ansible/regtest/library/testcases/ospf/test_ospf_intervals.py:116-136 | the restart is recorded as `None` without being run; the status query is held back exactly when it contains 'restart' |
| OspfIntervals.AbsentNone | ansible/regtest/library/testcases/ospf/test_ospf_intervals.py:167-172 | no interface line is added exactly when every interface appears in the neighbour table |
| OspfIntervals.InitialSpec | ansible/regtest/library/testcases/ospf/test_ospf_intervals.py:164-177 | the first neighbour check fails only on an empty or `None` output; a missing interface adds a line without failing |
| OspfIntervals.TimerSpec | ansible/regtest/library/testcases/ospf/test_ospf_intervals.py:185-200 | the hello and dead intervals are checked independently, each failing with its own line; no output fails with one line |
| OspfIntervals.DownUpSpec | ansible/regtest/library/testcases/ospf/test_ospf_intervals.py:204-249 | after an interface goes down the check fails iff it is still listed; after it comes up, iff it is not; no output fails both |
| OspfIntervals.OthersOnlyInitial | ansible/regtest/library/testcases/ospf/test_ospf_intervals.py:179 | a switch other than the interval switch records only the set-up, the initial check and goes status |
| OspfIntervals.UpsRecorded | ansible/regtest/library/testcases/ospf/test_ospf_intervals.py:160-161 | the set-up brings up every interface of the list, in order |
| OspfIntervals.CycleAt | ansible/regtest/library/testcases/ospf/test_ospf_intervals.py:181-249 | on the interval switch, interface i gets five records in a row: interval query, down, neighbour table, up, neighbour table |
| OspfLoadBalancing.Classes | ansible/regtest/library/testcases/ospf/test_ospf_loadbalancing.py:167-175 | each configuration line is classified on its own, in order |
| OspfLoadBalancing.Shown | ansible/regtest/library/testcases/ospf/test_ospf_loadbalancing.py:203-209 | for each port, whether it appears in the route output |
| OspfLoadBalancing.ApplyLine | ansible/regtest/library/testcases/ospf/test_ospf_loadbalancing.py:167-183 | one pass of the loop body does exactly the records, ports and carried command of the line's class |
| OspfLoadBalancing.Configure | ansible/regtest/library/testcases/ospf/test_ospf_loadbalancing.py:167-183 | the loop does exactly the records of the configuration lines, and reports whether it finishes without raising |
| OspfLoadBalancing.RunTail | ansible/regtest/library/testcases/ospf/test_ospf_loadbalancing.py:186-219 | everything after the loop does exactly the tail's records and reports whether it finishes |
| OspfLoadBalancing.RunModule | ansible/regtest/library/testcases/ospf/test_ospf_loadbalancing.py:222-266 | `main` writes the log text exactly when the run finishes without raising, and stores the verdict |
| OspfLoadBalancing.AgainRepeats | ansible/regtest/library/testcases/ospf/test_ospf_loadbalancing.py:173-183 | a line on the switch's own network records again the command built last |
| OspfLoadBalancing.AddressRecords | ansible/regtest/library/testcases/ospf/test_ospf_loadbalancing.py:176-180 | any other network line addresses its port, adds it to the ports to check and becomes the command repeated |
| OspfLoadBalancing.RoutesAreEths | ansible/regtest/library/testcases/ospf/test_ospf_loadbalancing.py:176-180 | when the loop finishes, the ports to check are those of the other-network lines, in order |
| OspfLoadBalancing.LoopCompletes | ansible/regtest/library/testcases/ospf/test_ospf_loadbalancing.py:167-183 | the loop finishes exactly when no line raises |
| OspfLoadBalancing.ClassifySpec | ansible/regtest/library/testcases/ospf/test_ospf_loadbalancing.py:168-172 | non-network lines are skipped; a network line without an address raises; otherwise its octets decide |
| OspfLoadBalancing.OwnNetwork | ansible/regtest/library/testcases/ospf/test_ospf_loadbalancing.py:173-174 | a network whose third octet is the switch's id repeats the last command |
| OspfLoadBalancing.AddressSpec | ansible/regtest/library/testcases/ospf/test_ospf_loadbalancing.py:175-180 | another network's port is `eth-<third octet>-1` and gets the network's address with the switch's id as fourth octet |
| OspfLoadBalancing.TargetSpec | ansible/regtest/library/testcases/ospf/test_ospf_loadbalancing.py:190-201 | the route queried is to the last switch left once the switch's own id is removed; Python raises when the id is missing or nothing is left |
| OspfLoadBalancing.RoutesSpec | ansible/regtest/library/testcases/ospf/test_ospf_loadbalancing.py:203-213 | the route check passes iff there is output naming every port; otherwise one line per missing port |
| OspfLoadBalancing.RoutesNone | ansible/regtest/library/testcases/ospf/test_ospf_loadbalancing.py:210-213 | no output fails with the `None` line, which has no trailing newline |
| OspfLoadBalancing.HeadHeld | ansible/regtest/library/testcases/ospf/test_ospf_loadbalancing.py:153-159 | the dummy interface and its address are recorded without being run |
| OspfTraffic.LinesOps | ansible/regtest/library/testcases/ospf/test_ospf_traffic.py:145-165 | each configuration line gives its own records, or raises |
| OspfTraffic.Configure | ansible/regtest/library/testcases/ospf/test_ospf_traffic.py:145-168 | the loop does exactly the records of the configuration lines, and reports whether it finishes without raising |
| OspfTraffic.RunTail | ansible/regtest/library/testcases/ospf/test_ospf_traffic.py:171-218 | everything after the loop does exactly the tail's records and reports whether it finishes |
| OspfTraffic.RunModule | ansible/regtest/library/testcases/ospf/test_ospf_traffic.py:221-264 | `main` writes the log text exactly when the run finishes without raising, and stores the verdict |
| OspfTraffic.ConfigCompletes | ansible/regtest/library/testcases/ospf/test_ospf_traffic.py:145-165 | the loop finishes exactly when every line's records are defined |
| OspfTraffic.OtherLines | ansible/regtest/library/testcases/ospf/test_ospf_traffic.py:145-150 | a line without the 'network' prefix records nothing; a network line without an address raises |
| OspfTraffic.OwnNetwork | ansible/regtest/library/testcases/ospf/test_ospf_traffic.py:152-160 | the switch's own network adds the dummy interface and assigns its address twice |
| OspfTraffic.OtherNetwork | ansible/regtest/library/testcases/ospf/test_ospf_traffic.py:161-168 | another network's port `eth-<third octet>-1` gets the network's address with the switch's id as fourth octet |
| OspfTraffic.RoutesSpec | ansible/regtest/library/testcases/ospf/test_ospf_traffic.py:175-197 | the route check passes iff there is output showing every leaf's network, the switch's own included |
| OspfTraffic.MissingNone | ansible/regtest/library/testcases/ospf/test_ospf_traffic.py:186-192 | the route loop adds no line exactly when every route to check occurs in the output |
| OspfTraffic.PingSpec | ansible/regtest/library/testcases/ospf/test_ospf_traffic.py:205-213 | the ping check fails exactly when the output lacks '3 received' |
| OspfTraffic.TailCases | ansible/regtest/library/testcases/ospf/test_ospf_traffic.py:175-200 | off the leaf list nothing is checked after the restart; a leaf with no other leaf makes Python raise |
| GoesUpgrade.Classes | ansible/regtest/library/testcases/upgrade/goes_upgrade.py:158-161 | each output line is classified on its own, stripped and lower-cased, in order |
| GoesUpgrade.FirstHit | ansible/regtest/library/testcases/upgrade/goes_upgrade.py:159-162 | the index of the first line mentioning 'version:' from a start index, every line before it not mentioning it |
| GoesUpgrade.VerifyGoesStatus | ansible/regtest/library/testcases/upgrade/goes_upgrade.py:130-148 | the status check does exactly one status step, and reports false where Python raises on a `None` status |
| GoesUpgrade.ParseVersion | ansible/regtest/library/testcases/upgrade/goes_upgrade.py:159-162 | the loop finds the version of the first line mentioning 'version:' |
| GoesUpgrade.GetCoreBootVersion | ansible/regtest/library/testcases/upgrade/goes_upgrade.py:151-162 | the version query leaves exactly the state and version of one version step |
| GoesUpgrade.RunReport | ansible/regtest/library/testcases/upgrade/goes_upgrade.py:201-208 | the second version query and the closing line do exactly the report's steps |
| GoesUpgrade.RunAfter | ansible/regtest/library/testcases/upgrade/goes_upgrade.py:192-208 | the second half of the upgrade does exactly its steps |
| GoesUpgrade.UpgradeGoes | ansible/regtest/library/testcases/upgrade/goes_upgrade.py:165-208 | the upgrade leaves exactly the state of its steps, and reports false where Python raises |
| GoesUpgrade.RunModule | ansible/regtest/library/testcases/upgrade/goes_upgrade.py:211-248 | `main` appends the log text exactly when the upgrade does not raise, with the verdict stored |
| GoesUpgrade.UpgradeCmdSpec | ansible/regtest/library/testcases/upgrade/goes_upgrade.py:183-190 | with coreboot, flashrom writes the installer into the BIOS region; otherwise the installer is run itself |
| GoesUpgrade.UpgradeSpec | ansible/regtest/library/testcases/upgrade/goes_upgrade.py:192-196 | the upgrade fails exactly when its output has 'timeout' or 'exit status 1'; no output passes |
| GoesUpgrade.VersionFromSpec | ansible/regtest/library/testcases/upgrade/goes_upgrade.py:159-162 | the version is token 1 of the first line mentioning 'version:'; none without such a line; Python raises on a single token |
| GoesUpgrade.VersionSpec | ansible/regtest/library/testcases/upgrade/goes_upgrade.py:157-162 | the same, on the output's lines stripped and lower-cased |
| GoesUpgrade.FoundIsWord | ansible/regtest/library/testcases/upgrade/goes_upgrade.py:162 | a found version is a non-empty token without white space |
| GoesUpgrade.FinishSpec | ansible/regtest/library/testcases/upgrade/goes_upgrade.py:204-208 | the closing line ends the narrative, `result.detail` holds it and the status is unchanged |
| GoesUpgrade.ClosingLast | ansible/regtest/library/testcases/upgrade/goes_upgrade.py:199-208 | when the upgrade finishes the narrative ends with the version line and `result.detail` holds it |
| GoesUpgradeDowngrade.Popped | ansible/regtest/library/testcases/upgrade/goes_upgrade_downgrade.py:241-244 | `main` keeps all version lines but the last |
| GoesUpgradeDowngrade.Found | ansible/regtest/library/testcases/upgrade/goes_upgrade_downgrade.py:197-199 | for each stripped version line, whether the current version contains it |
| GoesUpgradeDowngrade.RunsDowngrade | ansible/regtest/library/testcases/upgrade/goes_upgrade_downgrade.py:245-253 | the loop sets `run_downgrade` exactly as the specification function does |
| GoesUpgradeDowngrade.CheckVersions | ansible/regtest/library/testcases/upgrade/goes_upgrade_downgrade.py:196-203 | the version check concludes exactly as the version judge does on the current version |
| GoesUpgradeDowngrade.UpgradeDowngradeGoes | ansible/regtest/library/testcases/upgrade/goes_upgrade_downgrade.py:162-208 | one round does exactly its steps: status, installer, version query and check, status |
| GoesUpgradeDowngrade.RunRounds | ansible/regtest/library/testcases/upgrade/goes_upgrade_downgrade.py:255-279 | the rounds of `main` do exactly their steps |
| GoesUpgradeDowngrade.DowngradeFirst | ansible/regtest/library/testcases/upgrade/goes_upgrade_downgrade.py:256-268 | with `run_downgrade`, six rounds starting with a downgrade |
| GoesUpgradeDowngrade.UpgradeFirst | ansible/regtest/library/testcases/upgrade/goes_upgrade_downgrade.py:269-279 | without it, five rounds starting with an upgrade |
| GoesUpgradeDowngrade.RunModule | ansible/regtest/library/testcases/upgrade/goes_upgrade_downgrade.py:221-303 | `main` leaves the state of the script with the verdict stored; the log text is that of the final dictionary |
| GoesUpgradeDowngrade.LastLineIgnored | ansible/regtest/library/testcases/upgrade/goes_upgrade_downgrade.py:241-253 | a version named only on the last line never makes `main` start with a downgrade |
| GoesUpgradeDowngrade.UpsSpec | ansible/regtest/library/testcases/upgrade/goes_upgrade_downgrade.py:255-279 | six rounds starting with a downgrade when `run_downgrade` holds, else five; they alternate and end with an upgrade |
| GoesUpgradeDowngrade.RoundAt | ansible/regtest/library/testcases/upgrade/goes_upgrade_downgrade.py:162-208 | round i checks the status, runs its installer, queries the version and checks the status again |
| GoesUpgradeDowngrade.RoundsFlat | ansible/regtest/library/testcases/upgrade/goes_upgrade_downgrade.py:255-279 | the rounds are those of the alternating installer choices |
| GoesUpgradeDowngrade.StatusJudge | ansible/regtest/library/testcases/upgrade/goes_upgrade_downgrade.py:141-159 | no status passes; `RunModule` requires an answer, since Python raises on a `None` status |
| GoesUpgradeDowngrade.StatusSpec | ansible/regtest/library/testcases/upgrade/goes_upgrade_downgrade.py:141-159 | the status check fails exactly when the lower-cased status contains 'not ok' |
| GoesUpgradeDowngrade.InstallSpec | ansible/regtest/library/testcases/upgrade/goes_upgrade_downgrade.py:180-188 | an install fails exactly when its output has 'timeout' or 'exit status 1'; no output passes |
| GoesUpgradeDowngrade.VersionTextCount | ansible/regtest/library/testcases/upgrade/goes_upgrade_downgrade.py:197-203 | each missing version line adds one line to the narrative |
| GoesUpgradeDowngrade.MissingSpec | ansible/regtest/library/testcases/upgrade/goes_upgrade_downgrade.py:197-199 | the missing lines are exactly the stripped version lines the current version lacks |
| GoesUpgradeDowngrade.VersionSpec | ansible/regtest/library/testcases/upgrade/goes_upgrade_downgrade.py:190-203 | the version check fails exactly when some stripped line is not part of the current version |
| GoesUpgradeDowngrade.DetailLast | ansible/regtest/library/testcases/upgrade/goes_upgrade_downgrade.py:281-284 | `result.detail` is entered just before `result.status`, and they are the last entries |
| IperfTraffic.Clean | ansible/regtest/library/testcases/port_provision/verify_iperf_traffic_master.py:173-178 | for each line, whether it passes the counter check |
| IperfTraffic.VerifyTraffic | ansible/regtest/library/testcases/port_provision/verify_iperf_traffic_master.py:134-183 | the run leaves exactly the state of its script |
| IperfTraffic.RunModule | ansible/regtest/library/testcases/port_provision/verify_iperf_traffic_master.py:186-225 | `main` stores the verdict after the script; the appended log text is that of the final dictionary |
| IperfTraffic.TargetAt | ansible/regtest/library/testcases/port_provision/verify_iperf_traffic_master.py:155-160 | the i-th eth's j-th subport sends to 10.eth.subport.octet, the octet taken at the eth's first position in the list |
| IperfTraffic.IperfSpec | ansible/regtest/library/testcases/port_provision/verify_iperf_traffic_master.py:162-167 | the traffic check fails exactly when the report names none of 'Transfer', 'Bandwidth', 'Bytes' and 'bits/sec' |
| IperfTraffic.CrcSpec | ansible/regtest/library/testcases/port_provision/verify_iperf_traffic_master.py:169-178 | the counter check adds one line per output line naming the counter without a '0', and passes iff there is none |
| IperfTraffic.ZeroInName | ansible/regtest/library/testcases/port_provision/verify_iperf_traffic_master.py:174 | on an eth whose name has a '0' the counter check always passes, whatever the count |
| IperfTraffic.CrcUnrecorded | ansible/regtest/library/testcases/port_provision/verify_iperf_traffic_master.py:171-172 | the counter queries leave no entry in the dictionary |
| IperfTraffic.Detail | ansible/regtest/library/testcases/port_provision/verify_iperf_traffic_master.py:180-183 | `result.detail` holds the narrative of all checks, even after the closing status query |
| RedisCli.CallTrace | ansible/regtest/library/testcases/redis/test_bmc_redis.py:150-155 | each call starts its full command line and then `date`, in order |
| RedisCli.ExecuteAndVerify | ansible/regtest/library/testcases/redis/test_bmc_redis.py:136-169 | one call leaves exactly the state and narrative of the call function |
| RedisCli.ExecuteAll | ansible/regtest/library/testcases/redis/test_bmc_redis.py:172-196 | the calls in turn leave exactly the state and concatenated narrative of the calls function |
| RedisCli.CallSpec | ansible/regtest/library/testcases/redis/test_bmc_redis.py:150-169 | one call starts its command line and `date`, enters the key of the bare command, and fails exactly when its judge fails |
| RedisCli.CallsHistory | ansible/regtest/library/testcases/redis/test_bmc_redis.py:150-155 | the calls start their command lines and time stamps in order |
| RedisCli.CallsKeys | ansible/regtest/library/testcases/redis/test_bmc_redis.py:155-157 | the calls enter their keys, named by the bare commands without the `redis-cli` prefix, in order |
| RedisCli.CallsVerdict | ansible/regtest/library/testcases/redis/test_bmc_redis.py:159-169 | the calls only extend the narrative, and keep the status exactly when the narrative is unchanged |
| RedisCli.CallsDetail | ansible/regtest/library/testcases/redis/test_bmc_redis.py:184-198 | after the calls, the new keys are the calls' then `result.detail`, which holds the narrative; the status is kept iff no call added to it |
| BmcRedis.Insert | ansible/regtest/library/testcases/redis/test_bmc_redis.py:123-124 | `list.insert` adds exactly one element, appending past the end |
| BmcRedis.Parts | ansible/regtest/library/testcases/redis/test_bmc_redis.py:122-124 | the MAC's parts with 'ff' and 'fe' inserted have at least three elements |
| BmcRedis.Groups | ansible/regtest/library/testcases/redis/test_bmc_redis.py:127-129 | the parts joined pairwise give half as many groups, rounded up |
| BmcRedis.Cmds | ansible/regtest/library/testcases/redis/test_bmc_redis.py:180-196 | the five reads at the address with '%eth0' |
| BmcRedis.PairUp | ansible/regtest/library/testcases/redis/test_bmc_redis.py:127-129 | the loop yields exactly the pairwise groups |
| BmcRedis.GroupsHead | ansible/regtest/library/testcases/redis/test_bmc_redis.py:128-129 | the first group is the first two parts joined, or the last part alone |
| BmcRedis.GetIpv6Address | ansible/regtest/library/testcases/redis/test_bmc_redis.py:111-133 | the address is the one derived from the MAC, or none where Python raises; the MAC query is not recorded |
| BmcRedis.TestHgetOperations | ansible/regtest/library/testcases/redis/test_bmc_redis.py:172-198 | the run reports whether it finishes and then leaves exactly its state |
| BmcRedis.RunModule | ansible/regtest/library/testcases/redis/test_bmc_redis.py:201-238 | `main` writes the log text exactly when the run finishes, with the verdict stored |
| BmcRedis.FlipBitSpec | ansible/regtest/library/testcases/redis/test_bmc_redis.py:125 | toggling bit 1 twice gives the value back, and no other bit changes |
| BmcRedis.FlipBitXor | ansible/regtest/library/testcases/redis/test_bmc_redis.py:125 | on a byte the toggle is the exclusive or with 2 |
| BmcRedis.FirstPartRoundTrip | ansible/regtest/library/testcases/redis/test_bmc_redis.py:125 | the rendered first group parses back, and toggling again restores the MAC's first octet |
| BmcRedis.SixParts | ansible/regtest/library/testcases/redis/test_bmc_redis.py:122-131 | a six-part MAC a:b:c:d:e:f gives 'fe80::' and the groups (a^2)b, c'ff', 'fe'd, ef |
| BmcRedis.JudgeSpec | ansible/regtest/library/testcases/redis/test_bmc_redis.py:159-167 | a read fails exactly when its output is `None` or has 'error' in any case; a failure always has a line |
| BmcRedis.CmdsSpec | ansible/regtest/library/testcases/redis/test_bmc_redis.py:183-196 | the reads name temp, status, fan_tray, psu and vmon in that order |
| BmcRedis.Outcome | ansible/regtest/library/testcases/redis/test_bmc_redis.py:172-198 | the MAC query leaves no entry; the new keys are the five reads' then `result.detail`, which holds the narrative; the status is kept iff no read failed |
| RedisInvalid.TestHsetOperations | ansible/regtest/library/testcases/redis/test_redis_invalid.py:161-181 | the run leaves exactly the state of the two sets and `result.detail` |
| RedisInvalid.RunModule | ansible/regtest/library/testcases/redis/test_redis_invalid.py:184-224 | `main` stores the verdict; the log text exists exactly without remote access |
| RedisInvalid.PrefixSpec | ansible/regtest/library/testcases/redis/test_redis_invalid.py:86-97 | remotely the switch's address and port 6379 are named; locally neither |
| RedisInvalid.CmdSpec | ansible/regtest/library/testcases/redis/test_redis_invalid.py:131-135 | a get ignores the value; a set ends in the value |
| RedisInvalid.JudgeSpec | ansible/regtest/library/testcases/redis/test_redis_invalid.py:146-156 | a set passes exactly when its output exists and has the refusal in any case; a failure always has a line |
| RedisInvalid.Outcome | ansible/regtest/library/testcases/redis/test_redis_invalid.py:161-181 | the new keys are the two sets' then `result.detail`, which holds the narrative; the status is kept iff neither set added to it |
| RedisInvalid.Refused | ansible/regtest/library/testcases/redis/test_redis_invalid.py:169-179 | the run keeps its status exactly when both sets were refused |
| DockerOspf.Reports | ansible/regtest/library/testcases/docker/test_docker_ospf.py:149-157 | one report per config line, in order |
| DockerOspf.CheckRoutes | ansible/regtest/library/testcases/docker/test_docker_ospf.py:148-162 | the loop over the config file concludes exactly as the route judge does on the recorded routes |
| DockerOspf.CheckLine | ansible/regtest/library/testcases/docker/test_docker_ospf.py:150-157 | one line adds its report to the narrative, fails the run iff it adds one, and records nothing |
| DockerOspf.CheckRoutesCmd | ansible/regtest/library/testcases/docker/test_docker_ospf.py:144-162 | the route query and its check do exactly the route step |
| DockerOspf.VerifyOspfNeighbors | ansible/regtest/library/testcases/docker/test_docker_ospf.py:130-178 | the run leaves exactly the state of its script |
| DockerOspf.RunModule | ansible/regtest/library/testcases/docker/test_docker_ospf.py:181-218 | `main` stores the verdict after the script; the log text is that of the final dictionary |
| DockerOspf.ReportSpec | ansible/regtest/library/testcases/docker/test_docker_ospf.py:149-157 | the narrative is empty exactly when no network line of the config names a route the output lacks |
| DockerOspf.RouteSpec | ansible/regtest/library/testcases/docker/test_docker_ospf.py:148-162 | the route check fails exactly when the output is `None` or empty, or some network is missing; it never merely notes |
| DockerOspf.NeighborSpec | ansible/regtest/library/testcases/docker/test_docker_ospf.py:164-173 | the neighbour check fails exactly when the output is `None` or has 'error', case-sensitively |
| DockerOspf.RecordedSpec | ansible/regtest/library/testcases/docker/test_docker_ospf.py:140-178 | the module records the running config, the routes and the neighbours inside the container, then 'goes status' on the host |
| DockerOspf.EntryOrder | ansible/regtest/library/testcases/docker/test_docker_ospf.py:175-199 | the log ends with `result.detail`, the 'goes status' record and `result.status`, in that order |
| DockerUpDown.ParseConfig | ansible/regtest/library/testcases/docker/docker_updown.py:95-102 | the loop over the config file yields exactly the parsed container, ports and subport |
| DockerUpDown.MoveEths | ansible/regtest/library/testcases/docker/docker_updown.py:118-127 | one loop over the ports runs exactly one command per port, in order |
| DockerUpDown.RunModule | ansible/regtest/library/testcases/docker/docker_updown.py:80-136 | `main` returns its message exactly when the config parses and names a numbered container; it runs exactly the branch's commands |
| DockerUpDown.RunUp | ansible/regtest/library/testcases/docker/docker_updown.py:107-121 | 'up' runs the dummy's two commands and then one per port |
| DockerUpDown.RunDown | ansible/regtest/library/testcases/docker/docker_updown.py:122-131 | 'down' runs one command per port and then the dummy's |
| DockerUpDown.ParseOk | ansible/regtest/library/testcases/docker/docker_updown.py:95-102 | the config parses exactly when every line that is routed somewhere has a token 1 |
| DockerUpDown.ParseEths | ansible/regtest/library/testcases/docker/docker_updown.py:98-100 | the ports are those of the 'interface' lines, in order |
| DockerUpDown.ParseKeeps | ansible/regtest/library/testcases/docker/docker_updown.py:90-102 | container and subport keep their initial value unless a line sets them |
| DockerUpDown.RoutingOrder | ansible/regtest/library/testcases/docker/docker_updown.py:96-97 | a line naming the container wins over 'interface' and 'subport' on the same line |
| DockerUpDown.CommandsSpec | ansible/regtest/library/testcases/docker/docker_updown.py:107-131 | 'up' adds the dummy and moves every port in with address 10.port.subport.32/24; 'down' moves every port out and then the dummy |
| DockerUpDown.DummySpec | ansible/regtest/library/testcases/docker/docker_updown.py:104-105 | the module runs nothing unless the container name after its first character is a number; the dummy is named after it |
| DockerUpDownVlan.ParseConfig | ansible/regtest/library/testcases/docker/docker_updown_vlan.py:104-119 | the loop over the config file yields exactly the parsed configuration |
| DockerUpDownVlan.RunItem | ansible/regtest/library/testcases/docker/docker_updown_vlan.py:137-148 | one item runs its commands up to where Python raises, and reports whether it completes |
| DockerUpDownVlan.RunLoop | ansible/regtest/library/testcases/docker/docker_updown_vlan.py:137-160 | one loop over the ports runs exactly the loop's commands and reports whether it completes |
| DockerUpDownVlan.RunModule | ansible/regtest/library/testcases/docker/docker_updown_vlan.py:85-169 | `main` returns its message exactly when the run completes; it runs exactly the run's commands |
| DockerUpDownVlan.RunUp | ansible/regtest/library/testcases/docker/docker_updown_vlan.py:126-148 | 'up' runs the dummy's two commands and then the up loop |
| DockerUpDownVlan.RunDown | ansible/regtest/library/testcases/docker/docker_updown_vlan.py:149-164 | 'down' runs the down loop and then the dummy's command only when it completes |
| DockerUpDownVlan.LoopStops | ansible/regtest/library/testcases/docker/docker_updown_vlan.py:137-160 | once an item raises, the later items run nothing |
| DockerUpDownVlan.LoopFull | ansible/regtest/library/testcases/docker/docker_updown_vlan.py:137-160 | when every item completes with three commands, the loop completes with three per port |
| DockerUpDownVlan.LoopAt | ansible/regtest/library/testcases/docker/docker_updown_vlan.py:137-160 | command j of item i is command 3i+j of the loop |
| DockerUpDownVlan.LoopBreaks | ansible/regtest/library/testcases/docker/docker_updown_vlan.py:137-160 | the first item that raises ends the loop, after the commands before it |
| DockerUpDownVlan.UpSpec | ansible/regtest/library/testcases/docker/docker_updown_vlan.py:137-148 | 'up' completes exactly when every port has a VLAN id and a second octet; otherwise it stops at the first port lacking one |
| DockerUpDownVlan.DownSpec | ansible/regtest/library/testcases/docker/docker_updown_vlan.py:150-164 | 'down' completes exactly when every port has a VLAN id, and the dummy goes out last |
| DockerUpDownVlan.UpDownPair | ansible/regtest/library/testcases/docker/docker_updown_vlan.py:138-160 | 'down' undoes 'up' port by port: the sub-interface 'up' creates and raises is the one 'down' takes down and deletes |
| DockerUpDownVlan.ItemsFull | ansible/regtest/library/testcases/docker/docker_updown_vlan.py:137-160 | with a VLAN id and a second octet for every port, every item runs its three commands |
| DockerUpDownVlan.DummySpec | ansible/regtest/library/testcases/docker/docker_updown_vlan.py:121-133 | once the container number parses so does its last digit, the dummy's fourth octet; for a plain decimal number that digit is the number modulo 10 |
| DhcpVlan.VerifyVlanConfigurations | ansible/regtest/library/testcases/vlan/test_dhcp_vlan_configuration.py:123-241 | the run leaves exactly the state of its script |
| DhcpVlan.RunModule | ansible/regtest/library/testcases/vlan/test_dhcp_vlan_configuration.py:244-280 | `main` stores the verdict after the script; the appended log text is that of the final dictionary |
| DhcpVlan.LeafScript | ansible/regtest/library/testcases/vlan/test_dhcp_vlan_configuration.py:136-219 | the DHCP leaf brings down eth-2-1, ..., eth-32-1 first, then configures, restarts the server and captures twice |
| DhcpVlan.ClientScript | ansible/regtest/library/testcases/vlan/test_dhcp_vlan_configuration.py:141-241 | any other switch brings nothing down and runs dhclient on the port, then on its VLAN |
| DhcpVlan.AddressSpec | ansible/regtest/library/testcases/vlan/test_dhcp_vlan_configuration.py:152-159 | the leaf's address check fails exactly when there is output without 192.168.50.<id>; `None` passes |
| DhcpVlan.CaptureSpec | ansible/regtest/library/testcases/vlan/test_dhcp_vlan_configuration.py:169-219 | the untagged capture passes iff it mentions 'bootp/dhcp' in any case; the tagged one also needs the 802.1Q tag and the VLAN; no output fails both alike |
| DhcpVlan.LeaseSpec | ansible/regtest/library/testcases/vlan/test_dhcp_vlan_configuration.py:188-200 | a lease check passes iff the output contains the prefix; no output and a wrong address fail with different lines |
| DhcpVlan.LeaseNarrows | ansible/regtest/library/testcases/vlan/test_dhcp_vlan_configuration.py:188-236 | a lease on the VLAN's network also satisfies the port's looser check |
| VlanConfiguration.VerifyVlanConfigurations | ansible/regtest/library/testcases/vlan/test_vlan_configuration.py:149-300 | the run leaves exactly the state of its script |
| VlanConfiguration.RunModule | ansible/regtest/library/testcases/vlan/test_vlan_configuration.py:303-343 | `main` stores the verdict after the script; the appended log text is that of the final dictionary |
| VlanConfiguration.EvenDowns | ansible/regtest/library/testcases/vlan/test_vlan_configuration.py:168-170 | the records that bring down a range of even ports, one per port |
| VlanConfiguration.DownsEven | ansible/regtest/library/testcases/vlan/test_vlan_configuration.py:169 | from an odd start the even ports are brought down in ascending order |
| VlanConfiguration.LeafDowns | ansible/regtest/library/testcases/vlan/test_vlan_configuration.py:169-170 | the leaf brings down eth-2-1, eth-4-1, ..., eth-32-1 |
| VlanConfiguration.LeafDownsFirst | ansible/regtest/library/testcases/vlan/test_vlan_configuration.py:168-170 | those are the first sixteen records of the leaf's script |
| VlanConfiguration.OthersConfigureFirst | ansible/regtest/library/testcases/vlan/test_vlan_configuration.py:168-181 | off the leaf nothing is brought down: the script opens with the first configuration command |
| VlanConfiguration.VlansAt | ansible/regtest/library/testcases/vlan/test_vlan_configuration.py:173-203 | port i owns the sub-interfaces at positions k*i to k*i+k-1, k being 1 or 4 |
| VlanConfiguration.VlansLength | ansible/regtest/library/testcases/vlan/test_vlan_configuration.py:173-203 | there are one or four sub-interfaces per port |
| VlanConfiguration.SingleVlan | ansible/regtest/library/testcases/vlan/test_vlan_configuration.py:174-181 | single-VLAN mode: port E gets eth-E-1.1 with VLAN id E and address 192.168.E.<id> |
| VlanConfiguration.MultipleVlan | ansible/regtest/library/testcases/vlan/test_vlan_configuration.py:193-203 | multiple-VLAN mode: port E gets eth-E-1.s with VLAN id int(E)+s, for s = 1..4 |
| VlanConfiguration.ConfigureAt | ansible/regtest/library/testcases/vlan/test_vlan_configuration.py:174-203 | each sub-interface is created and then addressed, two records apiece |
| VlanConfiguration.AddressTestSpec | ansible/regtest/library/testcases/vlan/test_vlan_configuration.py:185-191 | the address check fails exactly when there is output lacking the address; `None` passes |
| VlanConfiguration.TagTestSpec | ansible/regtest/library/testcases/vlan/test_vlan_configuration.py:251-261 | the capture check fails without output, or when the 802.1Q tag or the VLAN id is missing |
| VlanConfiguration.LldpChecksAll | ansible/regtest/library/testcases/vlan/test_vlan_configuration.py:280-295 | in lldp mode every switch captures on every listed port |
| VlanConfiguration.LeafTarget | ansible/regtest/library/testcases/vlan/test_vlan_configuration.py:223-225 | with distinct ports the leaf probes port i towards the spine listed at position i |
| VlanConfiguration.LeafTargetRepeated | ansible/regtest/library/testcases/vlan/test_vlan_configuration.py:224 | a repeated port reuses the spine of its first occurrence |
| TransitVlan.ParseEths | ansible/regtest/library/testcases/vlan/test_on_transit_vlan_configuration.py:151-156 | the loop collects exactly the ports of the network lines, or none where Python raises |
| TransitVlan.CollectAll | ansible/regtest/library/testcases/vlan/test_on_transit_vlan_configuration.py:151-156 | the loop keeps the parse of every selected line in order and gives up at the first selected line that does not parse |
| TransitVlan.PingLoop | ansible/regtest/library/testcases/vlan/test_on_transit_vlan_configuration.py:198-203 | the first leaf's ping loop does exactly its pings and stops where the port lookup raises |
| TransitVlan.RunTraffic | ansible/regtest/library/testcases/vlan/test_on_transit_vlan_configuration.py:182-234 | the traffic phase does exactly its records and reports whether it finishes |
| TransitVlan.RunBody | ansible/regtest/library/testcases/vlan/test_on_transit_vlan_configuration.py:145-239 | everything after parsing does exactly its records and reports whether it finishes |
| TransitVlan.RunModule | ansible/regtest/library/testcases/vlan/test_on_transit_vlan_configuration.py:242-279 | `main` appends the log text exactly when the run finishes without raising, and stores the verdict |
| TransitVlan.ReachSpec | ansible/regtest/library/testcases/vlan/test_on_transit_vlan_configuration.py:198-203 | the ping loop stops at the first port not among the first two |
| TransitVlan.ReachAll | ansible/regtest/library/testcases/vlan/test_on_transit_vlan_configuration.py:198-203 | the first leaf pings every port exactly when each one repeats one of the first two |
| TransitVlan.PingsLength | ansible/regtest/library/testcases/vlan/test_on_transit_vlan_configuration.py:198-203 | one ping per port until the lookup raises |
| TransitVlan.PingsAt | ansible/regtest/library/testcases/vlan/test_on_transit_vlan_configuration.py:198-203 | each ping goes from its port to the target listed at the position of the port's first occurrence |
| TransitVlan.FirstLeafTargets | ansible/regtest/library/testcases/vlan/test_on_transit_vlan_configuration.py:183-203 | the first leaf pings its neighbour on the third and fourth listed ports |
| TransitVlan.OthersCapture | ansible/regtest/library/testcases/vlan/test_on_transit_vlan_configuration.py:204-234 | every other leaf and every spine captures on every port, one tagged-frame check each |
| TransitVlan.LoneLeafRaises | ansible/regtest/library/testcases/vlan/test_on_transit_vlan_configuration.py:183-186 | a leaf with no other leaf stops right after the restart |
| TransitVlan.NetworksSpec | ansible/regtest/library/testcases/vlan/test_on_transit_vlan_configuration.py:151-156 | the config parses iff every network line has a second word with three dot-separated fields; the ports are then the third fields, in order |
| TransitVlan.CollectSpec | ansible/regtest/library/testcases/vlan/test_on_transit_vlan_configuration.py:151-156 | collecting succeeds iff every kept element parses, and gives their parses in order |
| SinglePortProvision.VerifySinglePortProvisioning | ansible/regtest/library/testcases/port_provision/test_single_port_provision.py:148-224 | the run leaves exactly the state of its script |
| SinglePortProvision.RunModule | ansible/regtest/library/testcases/port_provision/test_single_port_provision.py:227-265 | `main` stores the verdict after the script; the appended log text is that of the final dictionary |
| SinglePortProvision.OtherSpeedsSilent | ansible/regtest/library/testcases/port_provision/test_single_port_provision.py:165 | any speed but 100g checks nothing: the status stays, the detail is empty, only the status query runs |
| SinglePortProvision.LinkVerdict | ansible/regtest/library/testcases/port_provision/test_single_port_provision.py:166-176 | in link mode the run passes exactly when the link state mentions 'true' |
| SinglePortProvision.ExpectSpec | ansible/regtest/library/testcases/port_provision/test_single_port_provision.py:188-216 | a check fails exactly when the output lacks the expected text |
| SinglePortProvision.DefaultFecPasses | ansible/regtest/library/testcases/port_provision/test_single_port_provision.py:194-204 | the default FEC, the empty string, is found in any output |
| SinglePortProvision.ComplianceSpec | ansible/regtest/library/testcases/port_provision/test_single_port_provision.py:182-186 | the optic check wants the compliance line with '100G CWDM4' for CWDM4 and '100GBASE-<media>' otherwise |
| SinglePortProvision.OpticOrder | ansible/regtest/library/testcases/port_provision/test_single_port_provision.py:177-219 | in optic mode the records run in order: optic, FEC, speed, then the interface is brought up |
| InterfaceSpeed.Reports | ansible/regtest/library/testcases/issues/verify_interface_speed.py:158-172 | one report per start file line, in order |
| InterfaceSpeed.CheckSpeeds | ansible/regtest/library/testcases/issues/verify_interface_speed.py:158-172 | the loop concludes exactly as the speed judge does on the recorded redis speeds |
| InterfaceSpeed.CheckLine | ansible/regtest/library/testcases/issues/verify_interface_speed.py:159-172 | one line adds its report to the narrative, fails the run iff it adds one, and records nothing |
| InterfaceSpeed.RunModule | ansible/regtest/library/testcases/issues/verify_interface_speed.py:134-196 | `main` leaves the state of the script with `result.status` then `result.detail` stored; the log text is that of the final dictionary |
| InterfaceSpeed.ReportSpec | ansible/regtest/library/testcases/issues/verify_interface_speed.py:158-172 | the narrative is non-empty exactly when some line sets a speed redis does not show for its interface |
| InterfaceSpeed.LineReportSpec | ansible/regtest/library/testcases/issues/verify_interface_speed.py:160-172 | a line adds to the narrative exactly when it sets a speed redis does not show |
| InterfaceSpeed.SpeedSpec | ansible/regtest/library/testcases/issues/verify_interface_speed.py:168-172 | the judge fails with the narrative, or passes when it is empty |
| InterfaceSpeed.QuietLines | ansible/regtest/library/testcases/issues/verify_interface_speed.py:160 | lines that set no speed never fail the test |
| InterfaceSpeed.AutoIsAutoneg | ansible/regtest/library/testcases/issues/verify_interface_speed.py:164-165 | the start file's 'auto' is looked up as 'autoneg'; any other speed as written |
| InterfaceSpeed.ParsedParts | ansible/regtest/library/testcases/issues/verify_interface_speed.py:161-162 | the speed is the text after 'speed ' up to any further 'speed '; the interface is the first word after '<channel> ' |
| InterfaceSpeed.ClosingKeys | ansible/regtest/library/testcases/issues/verify_interface_speed.py:174-176 | from an empty dictionary, `result.status` then `result.detail` are the last keys, and `result.detail` holds the narrative |
| InterfacesOnGoesStop.Eths | ansible/regtest/library/testcases/issues/verify_interfaces_on_goes_stop.py:131 | the seventeen interfaces eth-1-1 to eth-17-1 |
| InterfacesOnGoesStop.AsWanted | ansible/regtest/library/testcases/issues/verify_interfaces_on_goes_stop.py:139-159 | for each interface, whether its presence in the listing is the wanted one |
| InterfacesOnGoesStop.CheckLinks | ansible/regtest/library/testcases/issues/verify_interfaces_on_goes_stop.py:139-159 | one interface loop concludes exactly as the link judge does on the recorded listing |
| InterfacesOnGoesStop.ShowLinks | ansible/regtest/library/testcases/issues/verify_interfaces_on_goes_stop.py:137-159 | recording a listing and testing it is exactly one step |
| InterfacesOnGoesStop.RunModule | ansible/regtest/library/testcases/issues/verify_interfaces_on_goes_stop.py:118-183 | `main` leaves the state of the script with `result.status` then `result.detail` stored; the log text is that of the final dictionary |
| InterfacesOnGoesStop.LinkSpec | ansible/regtest/library/testcases/issues/verify_interfaces_on_goes_stop.py:133-159 | after stop the listing fails iff it names an interface; after start iff it misses one; one line per such interface |
| InterfacesOnGoesStop.OneSpec | ansible/regtest/library/testcases/issues/verify_interfaces_on_goes_stop.py:139-159 | either listing's test, with one line per interface whose presence is wrong |
| InterfacesOnGoesStop.ClosingKeys | ansible/regtest/library/testcases/issues/verify_interfaces_on_goes_stop.py:161-163 | from an empty dictionary, `result.status` then `result.detail` are the last keys, and `result.detail` holds the narrative |
| RestartGoesStatus.RestartRound | ansible/regtest/library/testcases/issues/restart_and_check_goes_status.py:141-150 | one iteration does exactly the round's steps |
| RestartGoesStatus.RestartRounds | ansible/regtest/library/testcases/issues/restart_and_check_goes_status.py:140-150 | the loop does exactly the rounds' steps |
| RestartGoesStatus.RunModule | ansible/regtest/library/testcases/issues/restart_and_check_goes_status.py:125-174 | `main` leaves the state of the rounds with `result.status` then `result.detail` stored; the log text is that of the final dictionary |
| RestartGoesStatus.StatusSpec | ansible/regtest/library/testcases/issues/restart_and_check_goes_status.py:143-150 | the status fails the test exactly when, lower-cased, it has 'not ok' or lacks one of the daemons, redis and vnet checks |
| RestartGoesStatus.FailLineNamesRound | ansible/regtest/library/testcases/issues/restart_and_check_goes_status.py:148-150 | failure lines name their round, so different rounds' failures differ |
| RestartGoesStatus.RoundsAt | ansible/regtest/library/testcases/issues/restart_and_check_goes_status.py:140-150 | round i restarts goes and then records the status checked in round i |
| RestartGoesStatus.RoundsLength | ansible/regtest/library/testcases/issues/restart_and_check_goes_status.py:140 | two records per round, none for a count of zero or less |
| RestartGoesStatus.NoRounds | ansible/regtest/library/testcases/issues/restart_and_check_goes_status.py:140-154 | with no restart asked for, the module passes with an empty narrative and records nothing |
| RestartGoesStatus.ClosingKeys | ansible/regtest/library/testcases/issues/restart_and_check_goes_status.py:152-154 | from an empty dictionary, `result.status` then `result.detail` are the last keys, and `result.detail` holds the narrative |
| RestartGoesStatus.RoundsRecords | ansible/regtest/library/testcases/issues/restart_and_check_goes_status.py:141-142 | every step of the rounds runs and records a command |
| VerifyFibRoutes.RunModule | ansible/regtest/library/testcases/issues/verify_fib_routes.py:128-179 | `main` leaves the state of the script with `result.status` then `result.detail` stored; the log text is that of the final dictionary |
| VerifyFibRoutes.CountSpec | ansible/regtest/library/testcases/issues/verify_fib_routes.py:151-155 | the test fails exactly when either table has fewer than 1550 lines; it never notes |
| VerifyFibRoutes.ShortListingFails | ansible/regtest/library/testcases/issues/verify_fib_routes.py:152 | a listing shorter than 1550 characters always fails |
| VerifyFibRoutes.PassRecordsCutOutputs | ansible/regtest/library/testcases/issues/verify_fib_routes.py:120-152 | when the test passes, both outputs are recorded cut to their first 512 characters |
| VerifyFibRoutes.ClosingKeys | ansible/regtest/library/testcases/issues/verify_fib_routes.py:157-159 | from an empty dictionary, `result.status` then `result.detail` are the last keys, and `result.detail` holds the narrative |
| GoesDetails.ParseValues | ansible/regtest/library/core/store_goes_details.py:129-132 | the parsing loop yields exactly the listing's values, or none where Python raises |
| GoesDetails.StoreAll | ansible/regtest/library/core/store_goes_details.py:134-142 | the three stores of a listing run exactly its store commands |
| GoesDetails.RunModule | ansible/regtest/library/core/store_goes_details.py:113-164 | `main` reports the hash exactly when both listings parse, and runs exactly the stores of the listings parsed before any raise |
| GoesDetails.CommandsCases | ansible/regtest/library/core/store_goes_details.py:129-157 | a version listing that does not parse runs nothing; a tag listing that does not parse leaves only the version stores |
| GoesDetails.ValuesNone | ansible/regtest/library/core/store_goes_details.py:131-132 | once a line has no separator, the whole listing fails to parse |
| GoesDetails.ValuesSpec | ansible/regtest/library/core/store_goes_details.py:129-132 | a listing parses exactly when every line has a separator, and then gives each line's value |
| GoesDetails.ValueSpec | ansible/regtest/library/core/store_goes_details.py:132 | a line's value is the text after its first ': ', up to any further one |
| GoesDetails.StoresSpec | ansible/regtest/library/core/store_goes_details.py:100-157 | one store per component, keyed '<switch>.version.<component>.<kind>', exactly when the listing has three values |
| GoesDetails.RunSpec | ansible/regtest/library/core/store_goes_details.py:129-159 | a run that completes stores, for a three-line version listing, the value of line i under the i-th component's sha1 key, and then, for a three-line tag listing, the value of line i under its tag key; nothing else |
| GoesDetails.VersionsFirst | ansible/regtest/library/core/store_goes_details.py:129-132 | a version listing that does not parse stops the module before any store |
| VerifyLinks.Targets | ansible/regtest/library/core/verify_links.py:132-144 | each ping loop covers eight addresses |
| VerifyLinks.RunModule | ansible/regtest/library/core/verify_links.py:93-159 | `main` returns exactly the outcome function's message and runs exactly its commands, recording nothing |
| VerifyLinks.LinksPass | ansible/regtest/library/core/verify_links.py:113-121 | the links pass exactly when every link state mentions 'true'; their narrative is a run of 'On switch' lines |
| VerifyLinks.PingsPass | ansible/regtest/library/core/verify_links.py:132-152 | a ping loop passes exactly when no ping lost every packet; failures give 'On switch' lines |
| VerifyLinks.NoPingSpec | ansible/regtest/library/core/verify_links.py:123-155 | a spine, or a leaf with a link down, pings nothing and reports 'UP' exactly when every link state mentions 'true' |
| VerifyLinks.PingSpec | ansible/regtest/library/core/verify_links.py:123-155 | on a leaf with all links up the run reports 'UP' exactly when no ping lost every packet |
| VerifyLinks.TargetsSpec | ansible/regtest/library/core/verify_links.py:124-144 | the pings cover the odd ports 1..31 in order, at .31 then .32 for the first leaf and the reverse for the others |
| ResetInvaders.RunModule | ansible/regtest/library/core/reset_invaders.py:104-153 | when the octet is found the whole reset runs and reports 'Reset all invaders'; otherwise nothing runs |
| ResetInvaders.ResetPort | ansible/regtest/library/core/reset_invaders.py:136-147 | one port's four commands |
| ResetInvaders.PortsSnoc | ansible/regtest/library/core/reset_invaders.py:136-147 | ports lo..hi are ports lo..hi-1 followed by port hi |
| ResetInvaders.PortsLength | ansible/regtest/library/core/reset_invaders.py:136-147 | four commands per port |
| ResetInvaders.PortsAt | ansible/regtest/library/core/reset_invaders.py:136-147 | command 4k+j of the ports from lo is command j of port lo+k |
| ResetInvaders.CommandsLayout | ansible/regtest/library/core/reset_invaders.py:123-149 | 132 commands: stop and driver reload first, start last, and every port 1..32 created, raised, forced to 100G and addressed in between |
| ResetInvaders.LastOctetSpec | ansible/regtest/library/core/reset_invaders.py:125-130 | a spine takes the octet at its place in the spine list, a leaf at its place in the leaf list; an unlisted switch raises |
| ResetInvaders.OctetFound | ansible/regtest/library/core/reset_invaders.py:121-130 | with one octet per listed switch every listed switch finds its octet |
| FailureSummary.Separate | ansible/regtest/library/core/get_failure_summary.py:101-109 | the second loop yields exactly the separated lines |
| FailureSummary.KeepNonEmpty | ansible/regtest/library/core/get_failure_summary.py:102 | `filter(bool, ...)` keeps exactly the non-empty lines |
| FailureSummary.RunModule | ansible/regtest/library/core/get_failure_summary.py:81-114 | `main` returns exactly the summary function's lines, runs one query per failed line and records nothing |
| FailureSummary.Collect | ansible/regtest/library/core/get_failure_summary.py:92-99 | the first loop gives exactly the gathered summary and runs one query per failed line |
| FailureSummary.AddLine | ansible/regtest/library/core/get_failure_summary.py:93-99 | one line adds exactly its part and runs its query only when failed |
| FailureSummary.NoFailures | ansible/regtest/library/core/get_failure_summary.py:92-93 | a report without failed test cases makes no query and gives no text |
| FailureSummary.NoFailuresNoLines | ansible/regtest/library/core/get_failure_summary.py:89-114 | the report of a run without failures gives no lines |
| FailureSummary.CmdsSpec | ansible/regtest/library/core/get_failure_summary.py:93-97 | the queries are one per failed line, in the report's order |
| FailureSummary.AddSpec | ansible/regtest/library/core/get_failure_summary.py:93-99 | a failed line adds itself and its narrative, 'None' in place of whitespace-only output; other lines add nothing |
| FailureSummary.GatherGrows | ansible/regtest/library/core/get_failure_summary.py:99 | the summary only grows |
| FailureSummary.NonEmptyNoBreak | ansible/regtest/library/core/get_failure_summary.py:102 | no kept line is empty or a separator |
| FailureSummary.SeparatedRoundTrip | ansible/regtest/library/core/get_failure_summary.py:103-109 | removing the separators gives back the summary lines, in order |
| FailureSummary.SeparatorSpec | ansible/regtest/library/core/get_failure_summary.py:105-109 | a line gets a separator exactly when it is failed and differs from the first line: copies of line 0 get none |
| FailureSummary.SummaryLines | ansible/regtest/library/core/get_failure_summary.py:101-109 | a completed run gives the narrative lines, separated at the failed test cases |
| FailureSummary.SeparatedHead | ansible/regtest/library/core/get_failure_summary.py:104-109 | the output never starts with a separator |
| FailureSummary.SeparatedLength | ansible/regtest/library/core/get_failure_summary.py:104-109 | every line is kept, so the output is at least as long |
| AddDeleteStaticRoutes.RunModule | ansible/regtest/library/core/add_delete_static_routes.py:90-114 | `main` runs each rewritten line once and reports one piece per line |
| AddDeleteStaticRoutes.RewrittenSpec | ansible/regtest/library/core/add_delete_static_routes.py:104-106 | one command per line, in order: the line itself unless deleting; when deleting, same length, differing only where 'add' occurred |
| AddDeleteStaticRoutes.MessageAppend | ansible/regtest/library/core/add_delete_static_routes.py:109 | the report is one piece per line run, glued without separator |
| AddDeleteStaticRoutes.MessageOneLine | ansible/regtest/library/core/add_delete_static_routes.py:101-109 | the report holds no line break when the switch name holds none |
| Rpc.Atoi | internal/redis/rpc/rpc.go:140 | the subport field converts exactly when it is an optional sign and decimal digits within the 64-bit range, to its value; a non-numeric field is a syntax error |
| Rpc.AtoiIntToStr | internal/redis/rpc/rpc.go:140 | every 64-bit value written in decimal converts back to itself |
| Rpc.Hset | internal/redis/rpc/rpc.go:137-156 | the result is the server's reply or a failure; a dial error is returned as it is; a key that is not a speed id goes straight to the server |
| Rpc.RefusesAuto | internal/redis/rpc/rpc.go:137-147 | 'auto' for the speed of a subport above 1 is refused with 'hset: ERROR invalid speed' before any call |
| Rpc.ReportsParseError | internal/redis/rpc/rpc.go:139-143 | a speed id whose subport field is not a number returns the conversion error, whatever the value |
| Rpc.ForwardsOthers | internal/redis/rpc/rpc.go:137-156 | every other write is passed to the server and its reply returned |
| Rpc.CallDecides | internal/redis/rpc/rpc.go:137-156 | the server's answer matters exactly when the guard lets the write through |
| Rpc.RefusesAutoOnSubport2 | internal/redis/rpc/rpc.go:137-147 | 'vnet.eth-1-2.speed' may not be set to 'auto' |
| Rpc.ForwardsAutoOnSubport1 | internal/redis/rpc/rpc.go:137-156 | 'vnet.eth-1-1.speed' may be set to 'auto': the write reaches the server |
| Docker.FindHost | internal/test/docker/docker.go:165-173 | the lookup never reports an error |
| Docker.FindHostFirst | internal/test/docker/docker.go:165-173 | the router found is the first whose hostname matches |
| Docker.FindHostMissing | internal/test/docker/docker.go:165-173 | without a match the zero router comes back, with no error |
| Docker.VlanName | internal/test/docker/docker.go:141-142 | an interface keeps its name exactly when it has no VLAN |
| Docker.VlanNameSplits | internal/test/docker/docker.go:141-142 | a VLAN sub-interface name splits back into the interface and the VLAN |
| Docker.VolumeDir | internal/test/docker/docker.go:94-104 | the volume directory is set exactly when both a volume and a mapping are configured |
| Docker.Bind | internal/test/docker/docker.go:128-132 | a router gets a bind exactly when the volume directory is set |
| Docker.BindOfConfig | internal/test/docker/docker.go:94-132 | the bind exists exactly when volume and mapping do; it is the working directory, the volume, 'volumes/', the hostname, ':' and the mapping |
| Docker.Remove | internal/test/docker/docker.go:368-369 | removing a character leaves no occurrence of it and never lengthens the text |
| Docker.ReplaceRemoves | internal/test/docker/docker.go:368-369 | replacing a one-character pattern by nothing removes exactly that character |
| Docker.CleanPid | internal/test/docker/docker.go:359-371 | the pid text is the output with every newline and then every quote removed, so none is left |
| Docker.CleanPidRemoves | internal/test/docker/docker.go:359-371 | every character other than a newline or a quote stays |
| Docker.CleanPidQuoted | internal/test/docker/docker.go:359-371 | the quoted pid line that docker inspect prints gives back the pid |
| Docker.IsImageLocal | internal/test/docker/docker.go:246-263 | true exactly when the image list was obtained and some repo tag equals the router's image |
| Docker.IsContainerRunning | internal/test/docker/docker.go:265-282 | true exactly when the container list was obtained and some name without its leading '/' is the one sought |
| Ip4.ToString | vnet/ip4/packet.go:68-75 | split at its dots, the text is the four octets in decimal |
| Ip4.ParseToString | vnet/ip4/packet.go:68-75 | the dotted decimal text of an address reads back as that address |
| Ip4.Diff | vnet/ip4/packet.go:77-88 | the result is -1, 0 or 1, and 0 exactly when the addresses are equal |
| Ip4.DiffOrder | vnet/ip4/packet.go:77-88 | Diff is -1, 0 or 1 as the first address sorts before, equal to or after the second, octet by octet, and is antisymmetric |
| Ip4.IsEqual | vnet/ip4/packet.go:65 | two addresses are equal exactly when their octets are |
| Ip4.IsZero | vnet/ip4/packet.go:66 | an address is zero exactly when all four octets are |
| Ip4.ToIp | vnet/ip4/packet.go:93-98 | the copy loop puts the four octets at the front of a zeroed wider address |
| Ip4.FlagsRoundTrip | vnet/ip4/packet.go:15-22 | the three flag bits and the 13-bit fragment offset read back independently from the word built of them |
| Ip4.FlagsComplete | vnet/ip4/packet.go:15-22 | every flags word is rebuilt from its three flags and its offset |
| Ip4.Wire | vnet/ip4/packet.go:33-61 | the header occupies 20 octets |
| Ip4.DecodeWire | vnet/ip4/packet.go:33-61 | reading the 20 octets of a header gives back its fields |
| Ip4.WireDecode | vnet/ip4/packet.go:33-61 | any 20 octets are the layout of the fields read from them |
| Ip4.ParseHeader | vnet/ip4/packet.go:131-137 | the header's 20 octets followed by the payload are the buffer |
| Ip4.OnesSumMod | vnet/ip4/packet.go:106-112 | the one's-complement sum equals the plain sum modulo 0xffff and is 0 only for an all-zero sum |
| Ip4.ComputeChecksumIgnoresField | vnet/ip4/packet.go:114-118 | the header's current checksum does not affect the computed one |
| Ip4.ChecksumVerifies | vnet/ip4/packet.go:106-118 | a header carrying its computed checksum sums to 0xffff, the receiver's test of RFC 1071 |
| Ip4.ComputeChecksum | vnet/ip4/packet.go:114-118 | the checksum complements the one's-complement sum of the header words with the checksum word zero |
| Ip4.ChecksumSplice | vnet/ip4/packet.go:106-118 | the complement of the sum put in place of the zero word makes the sum 0xffff |
| Ip4.Header.constructor | vnet/ip4/packet.go:33-61 | a header holds the given fields |
| Ip4.Header.Len | vnet/ip4/packet.go:120 | the header length is 20 |
| Ip4.Header.Write | vnet/ip4/packet.go:121-128 | the length becomes the buffer's (16 bits), the checksum is recomputed, and the 20 header octets overwrite the buffer's front |
| Ip4.WriteParse | vnet/ip4/packet.go:121-137 | a written buffer parses back to the written header, and the rest of the buffer is the payload |
| Ip4Flow.PayloadOffset | vnet/ip4/node.go:17-19 | the payload begins 4 * IHL octets in, at most 60 |
| Ip4Flow.PayloadOffsetMinimal | vnet/ip4/node.go:17-19 | a header of 0x45 has its payload right after its 20 octets |
| Ip4Flow.PayloadOffsetIgnoresVersion | vnet/ip4/node.go:17-19 | the version nibble does not move the payload |
| Ip4Flow.GetFlow | vnet/ip4/node.go:35-55 | the flow has the header's protocol and addresses; ICMP takes the type as extra, TCP and UDP the ports, others neither |
| Ip4Flow.PacketFlow | vnet/ip4/node.go:16-33 | on a packet buffer the flow has the protocol and addresses of the header; ICMP takes the octet at the IHL offset as extra, TCP and UDP the ports there, and any other protocol neither, even with the offset past the buffer |
| Ip4Flow.Reverse | vnet/ip4/node.go:56-61 | the reverse swaps addresses and ports and keeps protocol and extra |
| Ip4Flow.ReverseInvolution | vnet/ip4/node.go:56-61 | reversing twice gives the flow back |
| Ip4Flow.ReplyFlow | vnet/ip4/node.go:35-61 | the flow of a reply packet is the reverse of the packet's flow |
| Fou.PortsAfter | internal/netlink/fou.go:104-113 | deleting takes the port out and leaves a nil map nil; adding puts it in, allocating the map when nil |
| Fou.AddDelOthers | internal/netlink/fou.go:104-113 | no other port changes membership |
| Fou.AddIdempotent | internal/netlink/fou.go:104-113 | adding twice is adding once |
| Fou.DeleteAbsent | internal/netlink/fou.go:104-113 | deleting an absent port, or from a nil map, changes nothing |
| Fou.DeleteUndoesAdd | internal/netlink/fou.go:104-113 | deleting a port just added restores the map |
| Fou.Request | internal/netlink/fou.go:116-128 | the request is DEL exactly when deleting, ADD otherwise, with the type, family, protocol and port attributes |
| Fou.PortOfRequest | internal/netlink/fou.go:92-97 | reading a request's attributes back gives its port, without the checksum flag |
| Fou.Dumped | internal/netlink/fou.go:87-91 | the dump takes the replies up to the first message that is not a generic one |
| Fou.Load | internal/netlink/fou.go:87-100 | the dump keeps every port already known; with no generic reply the map is unchanged, and with one it is allocated |
| Fou.LoadMembers | internal/netlink/fou.go:87-100 | after the dump the ports are the old ones and exactly the dumped ones |
| Fou.FouMain.constructor | internal/netlink/fou.go:74-77 | the port map starts nil |
| Fou.FouMain.AddDelPort | internal/netlink/fou.go:104-113 | the method leaves the ports of the update function |
| Fou.FouMain.AddDel | internal/netlink/fou.go:116-132 | a request that cannot be built is an error with nothing sent or changed; otherwise the request is sent and the ports updated |
| Fou.FouMain.Get | internal/netlink/fou.go:80-102 | a request that cannot be built is an error; otherwise every dumped port is added |
| Vec.ResizeSpec | vnet/devices/ethernet/switch/fe1/internal/cpu/gentemplate_vec_interrupthandler.go:16-26 | the length grows by n and the old elements stay in front |
| Vec.ResizeCapacity | vnet/devices/ethernet/switch/fe1/internal/cpu/gentemplate_vec_interrupthandler.go:16-26 | the capacity changes only when the new length exceeds it, and then becomes the next resize capacity |
| Vec.ResizeNewElements | vnet/devices/ethernet/switch/fe1/internal/cpu/gentemplate_vec_interrupthandler.go:16-26 | new elements are zero values after a reallocation, and otherwise whatever the backing array held |
| Vec.ValidateSpec | vnet/devices/ethernet/switch/fe1/internal/cpu/gentemplate_vec_interrupthandler.go:28-46 | the length becomes at least i + 1, element i is in range and the old elements stay |
| Vec.ValidateCapacity | vnet/devices/ethernet/switch/fe1/internal/cpu/gentemplate_vec_interrupthandler.go:28-46 | only an index past the capacity reallocates, to the next resize capacity |
| Vec.ValidateFill | vnet/devices/ethernet/switch/fe1/internal/cpu/gentemplate_vec_interrupthandler.go:31-41 | after a reallocation the slots from the old capacity on hold the given zero; those between the old length and the old capacity hold Go's zero value |
| Vec.ValidateIdempotent | vnet/devices/ethernet/switch/fe1/internal/cpu/gentemplate_vec_interrupthandler.go:28-46 | validating the same index again changes nothing |
| Vec.InterruptHandlerVec.constructor | vnet/devices/ethernet/switch/fe1/internal/cpu/gentemplate_vec_interrupthandler.go:14 | a new vector is empty |
| Vec.InterruptHandlerVec.Len | vnet/devices/ethernet/switch/fe1/internal/cpu/gentemplate_vec_interrupthandler.go:54 | the length is the number of elements |
| Vec.InterruptHandlerVec.Grow | vnet/devices/ethernet/switch/fe1/internal/cpu/gentemplate_vec_interrupthandler.go:21-22 | the new array has the old elements in front and zero values after |
| Vec.InterruptHandlerVec.Fill | vnet/devices/ethernet/switch/fe1/internal/cpu/gentemplate_vec_interrupthandler.go:35-39 | the loop sets every slot from the old capacity on to the zero and leaves the rest |
| Vec.InterruptHandlerVec.Resize | vnet/devices/ethernet/switch/fe1/internal/cpu/gentemplate_vec_interrupthandler.go:16-26 | the method leaves the vector the resize function gives, in a fresh array exactly when it reallocated |
| Vec.InterruptHandlerVec.ValidateWith | vnet/devices/ethernet/switch/fe1/internal/cpu/gentemplate_vec_interrupthandler.go:28-46 | the method leaves the vector the validate function gives and returns index i |
| Vec.InterruptHandlerVec.Validate | vnet/devices/ethernet/switch/fe1/internal/cpu/gentemplate_vec_interrupthandler.go:47-49 | validate with no zero: the element i is in range |
| Vec.InterruptHandlerVec.ValidateInit | vnet/devices/ethernet/switch/fe1/internal/cpu/gentemplate_vec_interrupthandler.go:50-52 | validate with the given zero: the element i is in range |
| Udp.Wire | vnet/ip/udp/packet.go:15-23 | the header occupies 8 octets |
| Udp.DecodeWire | vnet/ip/udp/packet.go:15-23 | reading the 8 octets of a header gives back its fields |
| Udp.WireDecode | vnet/ip/udp/packet.go:15-23 | any 8 octets are the layout of the fields read from them |
| Udp.ParseHeader | vnet/ip/udp/packet.go:51-57 | the header's 8 octets followed by the payload are the buffer |
| Udp.String | vnet/ip/udp/packet.go:25-28 | the first space of the rendering comes right after the source port's digits |
| Udp.StringInjective | vnet/ip/udp/packet.go:25-28 | the rendering determines both ports |
| Udp.Separator | vnet/ip/udp/packet.go:25-28 | in the rendering the first space follows the source port's hex digits |
| Udp.Header.constructor | vnet/ip/udp/packet.go:15-23 | a header holds the given fields |
| Udp.Header.Len | vnet/ip/udp/packet.go:41 | the header length is 8 |
| Udp.Header.Write | vnet/ip/udp/packet.go:42-48 | the length becomes the buffer's (16 bits), the checksum 0, and the 8 header octets overwrite the buffer's front |
| Udp.WriteParse | vnet/ip/udp/packet.go:42-57 | a written buffer parses back to the written header, and the rest is the payload |
| PidFile.Path | goes/pidfile/pidfile.go:31-37 | a name already under the pid directory is kept as it is; any name ends its path |
| PidFile.PathUnderDir | goes/pidfile/pidfile.go:31-37 | the path of a name that needs no cleaning (empty, already under the directory, or without empty, '.' or '..' elements) starts with the pid directory |
| PidFile.PathIdempotent | goes/pidfile/pidfile.go:31-37 | for such a name, placing a path that is already placed changes nothing |
| PidFile.PathOfBareName | goes/pidfile/pidfile.go:31-37 | a bare name other than '.' and '..' is put in the pid directory behind a slash |
| PidFile.PathKeepsSiblings | goes/pidfile/pidfile.go:33-35 | the test is a string prefix, so a sibling such as the directory name plus 'x' is kept as it is |
| Nvram.MainVisits | goes/cmd/nvram/nvram.go:58-59 | the two scans visit 256 and 4096 offsets |
| Nvram.ScannedAsWritten | goes/cmd/nvram/nvram.go:40-47 | the loop as written prints nothing or every visited offset, and prints only when the signature sits at offset 0 |
| Nvram.ScanAsWritten | goes/cmd/nvram/nvram.go:40-47 | the loop as written prints every visited offset when the signature is at offset 0, and none otherwise |
| Nvram.Hits | goes/cmd/nvram/nvram.go:40-47 | every reported offset is a multiple of 16 in [i, end) and holds the signature |
| Nvram.HitsVisited | goes/cmd/nvram/nvram.go:40-47 | every reported offset is one the loop visits, i + 16j |
| Nvram.HitsExact | goes/cmd/nvram/nvram.go:40-47 | the reported offsets are visited ones holding the signature, and every visited offset holding it is reported |
| Nvram.HitsComplete | goes/cmd/nvram/nvram.go:40-47 | every visited offset holding the signature is reported |
| Nvram.Scan | goes/cmd/nvram/nvram.go:40-47 | the loop prints the hits: every printed offset is visited and holds the signature, and every visited offset holding it is printed |
| Nvram.SignatureAtSixteen | goes/cmd/nvram/nvram.go:40-47 | with the signature at offset 16 only, the loop as written prints nothing and the intended one prints 16 |
| Nvram.MainAsWritten | goes/cmd/nvram/nvram.go:49-60 | `Main` as written prints all 4352 visited offsets when the signature sits at offset 0, and nothing otherwise |
| Nvram.RunMain | goes/cmd/nvram/nvram.go:49-60 | `Main` with the corrected scan prints the hits below 0x1000 and then those in the BIOS area |

## Findings

| source | as written | input that shows it | evidently intended | confidence | as-written member | corrected member |
|---|---|---|---|---|---|---|
| goes/cmd/nvram/nvram.go:40-47 | the signature test reads `d[0]..d[3]` at every offset `i` instead of `d[i]..d[i+3]`, so it prints every visited offset when "LBIO" (or "OIBL") sits at offset 0, and none otherwise | a 32-byte image with "LBIO" at offset 16 only, scanned from 0 to 32, prints nothing | print each visited offset at which the signature sits | high; not executed | Nvram.SignatureAtSixteen | Nvram.Scan |

## Left out

- Processes, the clock and the log file are not modelled as I/O. A command's output comes from the oracle `Env.world`. The time stamp is the output of the `date` command. The log text `main` writes is returned as a string. Opening the file in 'w' mode (replace) or 'a' mode (append) is stated on each `RunModule` but not modelled as a file.
- `time.sleep` does nothing in the model: no module's outcome depends on it.
- `AnsibleModule` argument parsing and `exit_json` are left out. The arguments are a `Params` record, and the message and `changed` flag are the results of `RunModule`.
- `shlex` quoting of command lines is left out. Commands are plain strings.
- Python's `int()` on the digits of a name (`PyInt`) is modelled only for an optional sign and decimal digits, with no surrounding whitespace and no underscores. `int(x, 16)` in `BmcRedis` is modelled only for plain hexadecimal digits.
- A crash (an uncaught Python exception) is modelled by returning the commands issued up to the crash, with `None` or `completes == false` in place of a result. Where the crash comes from `None` output or a malformed file, the members below require inputs on which it does not happen.
- The `Policy` preconditions (`Plain`, `Truncating`, `Holding`) say which `run_cli`/`execute_commands` variant a module defines. They do not restrict the module's inputs.
- PortLinks.RunModule: requires that every checked `hget` answers (`Answered`), because the module raises on `None` output; that crash is not modelled.
- PortLinks.VerifyPortLinks: the same `Answered` precondition as `RunModule`.
- SetConfigs.RunModule: requires config lines of at least two words (`Valid`) and answered checks, because `split()[1]` and `'true' in None` raise.
- MasterSetConfigs.RunModule: requires that the switch is listed with an octet (`Valid`) and that the checks are answered, because the list lookups and `None` tests raise.
- BgpPeeringIfDown.RunModule: requires another leaf, four words on every neighbour line (`Valid`) and an answered ping (`Answered`), because `leaf_list[0]`, `split()[3]` and `'3 received' not in None` raise.
- BgpAuthentication.RunModule: requires four words on every neighbour line (`WellFormed`), because `split()[3]` raises on shorter lines.
- BgpAuthentication.Verdict: stated on the output the neighbour query returns (`ExecOut`) rather than on the oracle's streams.
- BgpPeeringLoopback.RunModule: requires four words on every neighbour line (`WellFormed`), for the same reason.
- DockerOspf.RunModule: requires a second word on every `network` line (`WellFormed`), because Python raises inside the route check otherwise.
- DockerOspf.CheckRoutes: requires the same `WellFormed` config as `DockerOspf.RunModule`, because Python raises on a `network` line without a second word.
- DockerOspf.VerifyOspfNeighbors: requires the same `WellFormed` config, for the same reason.
- IperfTraffic.RunModule: requires an octet for every listed eth (`Valid`) and answered iperf and counter queries (`Answered`), because the list index and `None` tests raise.
- IperfTraffic.ZeroInName: states the source's behaviour as written. The counter check looks for a '0' character, so it never fails on an eth whose name contains '0'. This is recorded as a property, not as a finding, because the intent is unclear.
- OspfIntervals.RunModule: requires decimal timers on the switch under test (`Valid`), because `int()` raises otherwise.
- OspfTraffic.RunModule: requires that a leaf's ping answers (`Answered`).
- GoesUpgradeDowngrade.RunModule: requires non-empty version strings (`Valid`), because `pop()` raises on an empty list. It also requires that the version query and `goes status` answer, because `.lower()` raises on `None`; that crash is not modelled.
- GoesUpgradeDowngrade.StatusJudge: passes a `None` status, where Python raises on `None.lower()`. No run of `RunModule` reaches that case, because it requires an answer.
- SinglePortProvision.RunModule: requires that the queries the 100g checks read answer (`Answered`).
- InterfaceSpeed.RunModule: requires that every speed line of the start file parses (`WellFormed`) and that the speed query answers, because Python indexes the split parts.
- InterfacesOnGoesStop.RunModule: requires that `ip link show` answers.
- RestartGoesStatus.RunModule: requires that `goes status` answers whenever it is queried.
- VerifyFibRoutes.RunModule: requires that both route listings answer.
- VlanConfiguration.RunModule: requires decimal VLAN ids and the list lookups of the switch's role (`Valid`), because `int()` and the index raise.
- FailureSummary.RunModule: requires a non-stripping policy, because this module's `run_cli` returns the output unstripped.
- GoesUpgrade.ParseVersion: takes the output's lines already classified (`Line`) rather than classifying the raw text. `OspfLoadBalancing.Configure` does the same.
- Rpc.Hset: requires a subport field in a speed id (three '-'-separated parts), because Go panics on the index otherwise. The RPC transport (socket dial, `Call`) is a parameter: the dial error and the server's reply are given.
- Recorder.Stored: Python 2 strings are bytes. The model measures the UTF-8 length of a string of characters and keeps its first 512 characters. That is exact for ASCII output (`Recorder.StoredAscii`). On output with non-ASCII bytes, Python 2's `out.encode('utf-8')` raises; that crash is not modelled.
- Recorder.StoredPrefix: cuts 512 characters where Python 2 cuts 512 bytes, so the bound it states is in characters. The two agree on ASCII output, for the reason given for `Recorder.Stored`.
- Ip4.ParseHeader: requires at least 20 octets. Go panics on a shorter buffer when it takes the header and slices `b[20:]`; that panic is not modelled.
- Udp.ParseHeader: requires at least 8 octets, for the same reason (`b[8:]`).
- Ip4Flow.PacketFlow: requires a 20-octet header and, for ICMP, TCP and UDP, the transport header octets inside the buffer. Go reads both through unsafe pointers without a length check, so a shorter buffer reads past its end; that is not modelled.
- Ip4Flow.GetFlow: requires a payload long enough for the transport header, because Go reads the transport header through an unsafe cast, without a length check.
- Fou.FouMain.Get: requires every dumped reply to carry the four attributes with their types, because Go's type assertions panic otherwise. The netlink socket is replaced by the request outcome and the list of replies.
- Docker.IsContainerRunning: requires non-empty container names, because `imagename[1:]` panics on an empty name. The docker API calls are replaced by their results (`None` for an error).
- Vec.InterruptHandlerVec.Resize: `elib.NextResizeCap` is a parameter, `nextCap`, required to be at least the new length.
- Vec.InterruptHandlerVec.ValidateWith: takes `elib.NextResizeCap` as the parameter `nextCap`, required to be at least `i + 1` when the index is past the capacity.
- Ip4.ComputeChecksumIgnoresField: `ip.Checksum`, `AddWithCarry` and `Fold` are not part of this model. The checksum is the RFC 1071 one's-complement sum of the header's 16-bit words, which does not depend on byte order.
- `Nvram.MainAsWritten` and `Nvram.RunMain` take the 1 MiB image as a parameter: opening and memory-mapping `/dev/mem` is left out.
- `pidfile.New` and `pidfile.RemoveAll` (file creation and removal) are left out. Only `Path` is modelled.
- The docker helpers that talk to the daemon (`Check`, `LaunchContainers`, `ExecCmd`, `TearDownContainers`, `pullImage`, `startContainer`, `stopContainer`, the interface moves) are left out beyond the pure parts modelled above, because they are API calls.
- `ansible/regtest/library/core/update_eth_ip_mtu.py` runs each configuration line as given and makes no decisions, so it is not part of this model.
- `goes/cmd/platina/mk1/serverd/serverd.go` (an HTTP server whose handlers are not shown), `main/goes-platina-mk1/main_test.go` and `main/goes-platina-mk1/test/net/slice/conf_vlan.go` (test orchestration and a YAML template) are not part of this model.
- `vnet/devices/optics/qsfp/qsfp_types.go` holds constant tables and no operations. Only its "100G CWDM4" compliance string appears, as the text `SinglePortProvision` looks for.
- The vnet node registration in `vnet/ip4/node.go` (`nodeInit`, `NodeInput`) is framework plumbing and is left out. So are the byte-order helpers (`ToHost`, `FromHost`, `Set`, `vnet.ByteAdd`), which the model replaces by values in host order. The UDP `Parse` method, which uses the `parse.Input` parser, is represented only by the `Udp.StringInjective` and `Udp.Separator` properties of the text it reads.
- PidFile.Join: `filepath.Join` is modelled as joining with one '/', without its lexical cleaning. The pid directory is taken to be clean, as the constant `/run/goes/pids` is.
- PidFile.Path: for a name with empty, '.' or '..' elements (such as "../x"), Go's cleaned path differs from the model's. `PidFile.PathUnderDir` and `PidFile.PathIdempotent` are stated only for names that need no cleaning (`Tidy`), and `PidFile.PathOfBareName` excludes '.' and '..'. With such names Go's path can leave the pid directory.
