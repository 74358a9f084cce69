# wifistate — a Dafny model of the connectivity notifier

The application shows the Wi-Fi or mobile-data connection state of an
Android device as a persistent notification. Its core has four parts:

- A **state classifier** (`NetworkStateInfo`) turns the radio state, the
  supplicant state, the Wi-Fi `NetworkInfo` and the mobile data state into
  one of eleven ordered states and a detail text. It reports whether
  anything changed.
- A **notification controller** (`WifiStateReceiver`) reacts to platform
  broadcasts and internal reports. It does three things:
  - re-shows the notification when the state changes;
  - arms a clear alarm for clearable states;
  - starts or stops the reachability monitor.
- A **reachability monitor** (`WifiStatePingService`) pings a target host in
  rounds. Each round makes `retry + 1` attempts and stops at the first
  reply. The monitor reports each flip of reachability, and in the current
  version it also reports fully failed rounds.
- A **radio control service** (`WifiStateControlService`) enables or
  disables the radio. Its re-enable disables the radio, waits for DISABLED
  and then enables it again after a delay. Each DISABLED broadcast seen
  while waiting posts another delayed enable.

The repository holds several generations of these classes:

- the current `app` ones;
- the `WifiStateCore` library ones;
- the earlier `src/net/orleaf` ones;
- the first `src/net/assemble` receiver, which keeps integer states.

Each generation is modelled as its own module, and lemmas relate the
generations where they share behaviour.

Modules, one per file:

| module | file | models |
|---|---|---|
| `Common` | common.dfy | Java `null` (`Option`) and 32-bit `int` wrap-around |
| `Signals` | signals.dfy | the `States` enum and its order, the raw platform signals, the supplicant and mobile tables, the icons |
| `Prefs` | prefs.dfy | the preference record and its defaults |
| `IpAddress` | ip_address.dfy | `int2IpAddress`, with a parser proving the rendering is lossless |
| `Channel` | channel.dfy | `convertFrequencyToChannel`, as written and corrected |
| `NetworkStateInfo` | network_state_info.dfy | the current classifier (`update`, the clear policy, the IP/gateway/detail getters) |
| `LegacyStateInfo` | legacy_state_info.dfy | the earlier classifier |
| `PingRound` | ping_round.dfy | one probe round (the attempt loop, counters, flip notices, failure counter) as a function and as loops |
| `PingService` | ping_service.dfy | the current monitor service (commands, screen on/off, worker tokens) |
| `CorePingService` | core_ping_service.dfy | the `WifiStateCore` monitor service |
| `ControlService` | control_service.dfy | the current and `WifiStateCore` control services |
| `LegacyControlService` | legacy_control_service.dfy | the earlier control service |
| `Receiver` | receiver.dfy | the current and `WifiStateCore` notification controllers |
| `LegacyReceiver` | legacy_receiver.dfy | the earlier controller, which has its own inline classifier |
| `AssembleReceiver` | assemble_receiver.dfy | the first controller, with integer states |

How the platform is modelled:

- Every platform call is either an input or a command in an output list.
  - Inputs are the signals read, the preferences, the probe results and
    the radio state.
  - Commands are: notify, cancel, schedule an alarm, start or stop a
    service, register or unregister a listener.
- Each component is a pure `Step` over an immutable state record. `Run`
  folds `Step` over a sequence of events.

## Model

| member | source | states |
|---|---|---|
| Common.Wrap32 | app/src/main/java/net/orleaf/android/wifistate/core/WifiStatePingService.java:198 | Java `int` arithmetic: the result is a 32-bit value congruent to the exact one modulo 2^32, and equal to it when it fits |
| Signals.RankInjective | app/src/main/java/net/orleaf/android/wifistate/core/NetworkStateInfo.java:33-45 | the enum order used by `compareTo` is strict: equal ordinals mean equal states |
| Signals.SupplicantRule | app/src/main/java/net/orleaf/android/wifistate/core/NetworkStateInfo.java:136-157 | the supplicant table yields SCANNING, CONNECTING or COMPLETED, and yields nothing exactly for the states no rule names |
| Signals.MobileRule | app/src/main/java/net/orleaf/android/wifistate/core/NetworkStateInfo.java:160-177 | data CONNECTING gives MOBILE_CONNECTING and CONNECTED gives MOBILE_CONNECTED (both iff); any other data state gives DISABLED "unavailable" |
| Signals.IconOf | app/src/main/java/net/orleaf/android/wifistate/core/NetworkStateInfo.java:236-261 | every state has a drawable of its own: never resource 0 and never the warning icon |
| Signals.IconOfInjective | app/src/main/java/net/orleaf/android/wifistate/core/NetworkStateInfo.java:236-261 | distinct states show distinct icons |
| IpAddress.Octet | app/src/main/java/net/orleaf/android/wifistate/core/NetworkStateInfo.java:480-483 | `(ip >> 8k) & 0xff` is a byte value 0..255 |
| IpAddress.Octets | app/src/main/java/net/orleaf/android/wifistate/core/NetworkStateInfo.java:478-484 | four octets, each 0..255 |
| IpAddress.OctetsLittleEndian | app/src/main/java/net/orleaf/android/wifistate/core/NetworkStateInfo.java:478-484 | the octets, low byte first, recombine to the unsigned 32-bit value of `ip` |
| IpAddress.OctetsInjective | app/src/main/java/net/orleaf/android/wifistate/core/NetworkStateInfo.java:478-484 | two Java `int`s render to the same octets exactly when they are equal |
| IpAddress.DigitChar | app/src/main/java/net/orleaf/android/wifistate/core/NetworkStateInfo.java:480 | a digit becomes a character '0'..'9' |
| IpAddress.Decimal | app/src/main/java/net/orleaf/android/wifistate/core/NetworkStateInfo.java:480-483 | Java's rendering of a non-negative `int`: only digits, no leading zero except for 0 |
| IpAddress.DecimalRoundTrip | app/src/main/java/net/orleaf/android/wifistate/core/NetworkStateInfo.java:480-483 | parsing the rendering gives the number back |
| IpAddress.Split | app/src/main/java/net/orleaf/android/wifistate/core/NetworkStateInfo.java:479-483 | splitting on dots yields at least one field |
| IpAddress.SplitNoDot | app/src/main/java/net/orleaf/android/wifistate/core/NetworkStateInfo.java:479-483 | text with no dot is one field |
| IpAddress.SplitDot | app/src/main/java/net/orleaf/android/wifistate/core/NetworkStateInfo.java:479-483 | a dot-free field, a dot and the rest split into that field and the rest's fields |
| IpAddress.Int2IpAddress | app/src/main/java/net/orleaf/android/wifistate/core/NetworkStateInfo.java:478-484 | the dotted quad has at least 7 characters |
| IpAddress.Int2IpAddressRoundTrip | app/src/main/java/net/orleaf/android/wifistate/core/NetworkStateInfo.java:478-484 | the dotted quad parses back to exactly the four octets, which recombine to `ip` mod 2^32: nothing is lost |
| Channel.ChannelOfFrequency | app/src/main/java/net/orleaf/android/wifistate/core/NetworkStateInfo.java:492-500 | 2412..2484 MHz gives 1..15 and 5170..5825 MHz gives 34..165, each within its 5 MHz step; -1 exactly outside both bands |
| Channel.ChannelMonotone | app/src/main/java/net/orleaf/android/wifistate/core/NetworkStateInfo.java:492-500 | within a band a higher frequency never gives a lower channel |
| Channel.Band5CentreFrequencies | app/src/main/java/net/orleaf/android/wifistate/core/NetworkStateInfo.java:495-496 | every 5 GHz channel is produced by its centre frequency |
| Channel.Band24CentreFrequencies | app/src/main/java/net/orleaf/android/wifistate/core/NetworkStateInfo.java:493-494 | channels 1..13 are produced by their centre frequencies |
| Channel.Channel2484AsWritten | app/src/main/java/net/orleaf/android/wifistate/core/NetworkStateInfo.java:493-494 | 2482..2484 MHz (channel 14's centre) is reported as channel 15 |
| Channel.ChannelOfFrequencyIeee | app/src/main/java/net/orleaf/android/wifistate/core/NetworkStateInfo.java:492-500 | the corrected conversion: 2.4 GHz gives 1..14, 2484 gives 14, and everything outside 2482..2484 is unchanged |
| Channel.IeeeBand24Channels | app/src/main/java/net/orleaf/android/wifistate/core/NetworkStateInfo.java:493-494 | the corrected conversion maps all fourteen 2.4 GHz centres to their own numbers |
| Channel.IeeeMonotone | app/src/main/java/net/orleaf/android/wifistate/core/NetworkStateInfo.java:492-500 | the correction keeps the conversion monotone within each band |
| NetworkStateInfo.NetworkNameFor | app/src/main/java/net/orleaf/android/wifistate/core/NetworkStateInfo.java:193-204 | a name exists only once an access point is chosen or on mobile data |
| NetworkStateInfo.Update | app/src/main/java/net/orleaf/android/wifistate/core/NetworkStateInfo.java:87-207 | the latch is set iff it was or the supplicant is not DISCONNECTED; "no change" leaves everything but the latch as it was and needs a non-null detail; a change moves state or detail, or fills a null detail |
| NetworkStateInfo.GatewayIpAddress | app/src/main/java/net/orleaf/android/wifistate/core/NetworkStateInfo.java:463-473 | a gateway string exists iff Wi-Fi is connected and the gateway is non-zero, and it parses back to the gateway's octets |
| NetworkStateInfo.MyIpAddress | app/src/main/java/net/orleaf/android/wifistate/core/NetworkStateInfo.java:423-458 | on connected Wi-Fi the Wi-Fi address when non-zero, else the DHCP address when non-zero, else the interface address; in every other state the interface address |
| NetworkStateInfo.MyIpAddressReadsBack | app/src/main/java/net/orleaf/android/wifistate/core/NetworkStateInfo.java:423-436 | on connected Wi-Fi with a known Wi-Fi or DHCP address, the text returned parses back to that address's four octets |
| NetworkStateInfo.StateDetail | app/src/main/java/net/orleaf/android/wifistate/core/NetworkStateInfo.java:322-331 | the text is "IP:" followed by the address iff connected with a known address; otherwise it is the stored detail, and nothing iff no detail is stored |
| NetworkStateInfo.StateDetailShowsAddress | app/src/main/java/net/orleaf/android/wifistate/core/NetworkStateInfo.java:322-331 | on connected Wi-Fi with a non-zero address the text is "IP:" followed by a dotted quad that parses back to the address |
| NetworkStateInfo.UpdateRadioOff | app/src/main/java/net/orleaf/android/wifistate/core/NetworkStateInfo.java:107-114 | radio DISABLING/DISABLED gives DISABLED "unavailable" unless mobile data is shown, which then decides |
| NetworkStateInfo.UpdateRadioEnabling | app/src/main/java/net/orleaf/android/wifistate/core/NetworkStateInfo.java:115-118 | radio ENABLING always gives WIFI_ENABLING "enabling" |
| NetworkStateInfo.UpdateEnabledAtLeastEnabled | app/src/main/java/net/orleaf/android/wifistate/core/NetworkStateInfo.java:119-177 | radio ENABLED gives at least WIFI_ENABLED unless the mobile override replaces it |
| NetworkStateInfo.UpdateBump | app/src/main/java/net/orleaf/android/wifistate/core/NetworkStateInfo.java:119-124 | with no rule to apply, a state below WIFI_ENABLED is raised to it, and that is a change |
| NetworkStateInfo.UpdateCarryOver | app/src/main/java/net/orleaf/android/wifistate/core/NetworkStateInfo.java:119-187 | with no rule and no override, the state and detail carry over, and a non-null detail means no change |
| NetworkStateInfo.UpdateLinkPriority | app/src/main/java/net/orleaf/android/wifistate/core/NetworkStateInfo.java:126-135 | OBTAINING_IPADDR and CONNECTED links decide before the supplicant table and the latch |
| NetworkStateInfo.UpdateSupplicantTable | app/src/main/java/net/orleaf/android/wifistate/core/NetworkStateInfo.java:136-157 | with the latch set and no link rule, the supplicant state decides by the table |
| NetworkStateInfo.UpdateLatchClearIgnoresSupplicant | app/src/main/java/net/orleaf/android/wifistate/core/NetworkStateInfo.java:97-100 | a clear latch means the supplicant is DISCONNECTED, and it is then ignored |
| NetworkStateInfo.UpdateMobileOverride | app/src/main/java/net/orleaf/android/wifistate/core/NetworkStateInfo.java:160-177 | with data shown, DISABLED (or SCANNING under clear-on-scanning) becomes the data verdict |
| NetworkStateInfo.FirstUpdateChanges | app/src/main/java/net/orleaf/android/wifistate/core/NetworkStateInfo.java:184-187 | the first update of a new instance always reports a change |
| NetworkStateInfo.RepeatUpdateUnchanged | app/src/main/java/net/orleaf/android/wifistate/core/NetworkStateInfo.java:87-207 | repeating an update on the same signals reports no change, outside the two exceptions below |
| NetworkStateInfo.RepeatUpdateUnknownRadio | app/src/main/java/net/orleaf/android/wifistate/core/NetworkStateInfo.java:184-187 | radio UNKNOWN keeps a null detail, so every repeat reports a change |
| NetworkStateInfo.RepeatUpdateScanningOverride | app/src/main/java/net/orleaf/android/wifistate/core/NetworkStateInfo.java:119-177 | SCANNING overridden to DISABLED is raised to WIFI_ENABLED on the repeat, a second change |
| NetworkStateInfo.UpdateNetworkName | app/src/main/java/net/orleaf/android/wifistate/core/NetworkStateInfo.java:193-204 | after a change the name is the SSID, the APN or null, by state |
| NetworkStateInfo.LatchMonotone | app/src/main/java/net/orleaf/android/wifistate/core/NetworkStateInfo.java:97-100 | over any sequence of updates the latch is never cleared, and it is set iff some update saw a supplicant state other than DISCONNECTED |
| NetworkStateInfo.HelperRules | app/src/main/java/net/orleaf/android/wifistate/core/NetworkStateInfo.java:214-308 | clearable iff one of the three policies applies; "Mobile Data" iff a mobile state; access point chosen iff CONNECTING..WIFI_CONNECTED |
| LegacyStateInfo.Update | src/net/orleaf/android/wifistate/NetworkStateInfo.java:69-181 | the same latch and name guarantees as the current classifier; no change keeps state and detail and needs a non-null detail, and a change moves state or detail or fills a null detail |
| LegacyStateInfo.LocalIpAddress | src/net/orleaf/android/wifistate/NetworkStateInfo.java:258-266 | an address string exists iff Wi-Fi is connected and the DHCP address is non-zero, and it parses back to its octets |
| LegacyStateInfo.GatewayIpAddress | src/net/orleaf/android/wifistate/NetworkStateInfo.java:271-279 | same rule as, and equal to, the current gateway getter |
| LegacyStateInfo.UpdateRadioOff | src/net/orleaf/android/wifistate/NetworkStateInfo.java:87-107 | radio off: the data state decides when shown, else DISABLED "unavailable" |
| LegacyStateInfo.UpdateRadioOn | src/net/orleaf/android/wifistate/NetworkStateInfo.java:108-117 | ENABLING gives WIFI_ENABLING; ENABLED never leaves the state below WIFI_ENABLED |
| LegacyStateInfo.ScanningNeverOverridden | src/net/orleaf/android/wifistate/NetworkStateInfo.java:119-150 | SCANNING stays SCANNING whatever the preferences |
| LegacyStateInfo.AgreesWithCurrent | src/net/orleaf/android/wifistate/NetworkStateInfo.java:69-181 | with the radio on and no scanning override, the earlier and the current classifiers give the same outcome |
| LegacyStateInfo.FirstUpdateChanges | src/net/orleaf/android/wifistate/NetworkStateInfo.java:158-165 | the first update always reports a change |
| LegacyStateInfo.RepeatUpdateUnchanged | src/net/orleaf/android/wifistate/NetworkStateInfo.java:69-181 | a repeat of an update that left a detail reports no change |
| LegacyStateInfo.UpdateNetworkName | src/net/orleaf/android/wifistate/NetworkStateInfo.java:168-178 | after a change the name is the SSID, the APN or null, by state |
| LegacyStateInfo.ClearableRule | src/net/orleaf/android/wifistate/NetworkStateInfo.java:190-199 | clearable iff disabled-and-policy or connected-and-policy, which is the current rule with the scanning policy off |
| PingRound.Count | app/src/main/java/net/orleaf/android/wifistate/core/WifiStatePingService.java:202-221 | one attempt adds one to the total and to exactly one of ok/ng, and stores its result |
| PingRound.Flags | app/src/main/java/net/orleaf/android/wifistate/core/WifiStatePingService.java:218-221 | the flags of a list of notices, element by element |
| PingRound.Attempts | app/src/main/java/net/orleaf/android/wifistate/core/WifiStatePingService.java:201-225 | no attempt for a non-positive budget, otherwise between 1 and the budget |
| PingRound.AttemptsSpec | app/src/main/java/net/orleaf/android/wifistate/core/WifiStatePingService.java:201-225 | the attempts stop at the first success or at the budget; the counters move by the attempts and the failures; the notices are exactly the flips |
| PingRound.RunRound | app/src/main/java/net/orleaf/android/wifistate/core/WifiStatePingService.java:198-233 | the failure counter goes up by one and is reported iff every attempt failed (or no attempt was made), and is reset otherwise |
| PingRound.AttemptsStep | app/src/main/java/net/orleaf/android/wifistate/core/WifiStatePingService.java:201-225 | a failed first probe is one counted attempt followed by the rest of the round |
| PingRound.ShiftShift | app/src/main/java/net/orleaf/android/wifistate/core/WifiStatePingService.java:201-225 | prefixing attempts twice is prefixing their sum |
| PingRound.AttemptsNone | app/src/main/java/net/orleaf/android/wifistate/core/WifiStatePingService.java:201 | an exhausted budget makes no attempt |
| PingRound.AttemptsHit | app/src/main/java/net/orleaf/android/wifistate/core/WifiStatePingService.java:222-224 | a successful first probe ends the round after one attempt |
| PingRound.MissStep | app/src/main/java/net/orleaf/android/wifistate/core/WifiStatePingService.java:201-225 | the loop invariant survives a failed probe |
| PingRound.HitStep | app/src/main/java/net/orleaf/android/wifistate/core/WifiStatePingService.java:222-224 | a successful probe ends the loop with the round's result |
| PingRound.AttemptLoop | app/src/main/java/net/orleaf/android/wifistate/core/WifiStatePingService.java:198-225 | the loop as written computes the round, and its counter after the early exit is the number of failed probes |
| PingRound.PingRoundLoop | app/src/main/java/net/orleaf/android/wifistate/core/WifiStatePingService.java:198-233 | the whole round as written, including the `count == ntry` failure test, equals the functional round |
| PingRound.AttemptsBounded | app/src/main/java/net/orleaf/android/wifistate/core/WifiStatePingService.java:201-225 | never more than `retry + 1` attempts, none after the first success |
| PingRound.RoundKeepsTally | app/src/main/java/net/orleaf/android/wifistate/core/WifiStatePingService.java:202-217 | total = ok + ng survives a round and no counter decreases |
| PingRound.FlipsAlternate | app/src/main/java/net/orleaf/android/wifistate/core/WifiStatePingService.java:218-221 | a round emits at most two notices, alternating, the first opposite to the stored flag |
| PingRound.NoticesCarryTotals | app/src/main/java/net/orleaf/android/wifistate/core/WifiStatePingService.java:151-159 | every notice carries counters with total = ok + ng |
| PingRound.RoundFlagFollowsProbes | app/src/main/java/net/orleaf/android/wifistate/core/WifiStatePingService.java:218-221 | the stored flag ends as the last probe's result, and the round is silent iff no attempt disagreed with the stored flag |
| PingRound.FailCounterRule | app/src/main/java/net/orleaf/android/wifistate/core/WifiStatePingService.java:226-233 | a fully failed round raises the counter by one and reports it; any success resets it silently |
| PingService.SelectTarget | app/src/main/java/net/orleaf/android/wifistate/core/WifiStatePingService.java:91-97 | the configured host when set and non-empty, else the host the caller passed |
| PingService.StartThread | app/src/main/java/net/orleaf/android/wifistate/core/WifiStatePingService.java:133-139 | a new worker only when none is current; afterwards one always is |
| PingService.Notices | app/src/main/java/net/orleaf/android/wifistate/core/WifiStatePingService.java:151-159 | each flip becomes one reachability broadcast with its counters |
| PingService.CommandStarts | app/src/main/java/net/orleaf/android/wifistate/core/WifiStatePingService.java:89-128 | unless the screen is known off, a command selects the target and then starts (resetting the flag and counters) or stops |
| PingService.CommandScreenOff | app/src/main/java/net/orleaf/android/wifistate/core/WifiStatePingService.java:99-109 | with the screen off a command only records the target |
| PingService.StartKeepsWorker | app/src/main/java/net/orleaf/android/wifistate/core/WifiStatePingService.java:133-139 | starting while a worker is current keeps that worker |
| PingService.StaleWorkerIdle | app/src/main/java/net/orleaf/android/wifistate/core/WifiStatePingService.java:192-194 | a worker that is not current does nothing |
| PingService.StepInv | app/src/main/java/net/orleaf/android/wifistate/core/WifiStatePingService.java:89-241 | consistent counters and unique worker tokens survive every event |
| PingService.StoppedWorkerNeverResumes | app/src/main/java/net/orleaf/android/wifistate/core/WifiStatePingService.java:144-146 | once stopped, a worker never becomes current again |
| PingService.CurrentWorkerRound | app/src/main/java/net/orleaf/android/wifistate/core/WifiStatePingService.java:192-241 | a current worker's round moves the counters by its attempts and reports the failure counter as the round dictates |
| CorePingService.Results | WifiStateCore/src/net/orleaf/android/wifistate/core/WifiStatePingService.java:189-220 | a probe is reachable iff the ping got a reply |
| CorePingService.StartSelectsTarget | WifiStateCore/src/net/orleaf/android/wifistate/core/WifiStatePingService.java:72-83 | a start command resets the flag to reachable and selects the target as the current version does |
| CorePingService.ScreenOnKeepsFlag | WifiStateCore/src/net/orleaf/android/wifistate/core/WifiStatePingService.java:88-98 | screen on restarts counting but keeps the stored flag and the worker |
| CorePingService.CreateUnknownScreen | WifiStateCore/src/net/orleaf/android/wifistate/core/WifiStatePingService.java:60-68 | creation with an unknown screen state starts, but with no target it stops |
| CorePingService.UnresolvedIsNoReply | WifiStateCore/src/net/orleaf/android/wifistate/core/WifiStatePingService.java:192-199 | an unresolved name counts exactly like a ping without reply |
| CorePingService.CurrentWorkerRound | WifiStateCore/src/net/orleaf/android/wifistate/core/WifiStatePingService.java:147-176 | a round keeps total = ok + ng, counts each attempt once and stops at the first reply |
| CorePingService.FailedRound | WifiStateCore/src/net/orleaf/android/wifistate/core/WifiStatePingService.java:151-176 | a round with no reply makes exactly retry + 1 attempts, all counted as failures, and ends unreachable |
| CorePingService.StepInv | WifiStateCore/src/net/orleaf/android/wifistate/core/WifiStatePingService.java:60-184 | consistent counters and a current worker older than the next token survive every event |
| CorePingService.StoppedWorkerNeverResumes | WifiStateCore/src/net/orleaf/android/wifistate/core/WifiStatePingService.java:113-115 | once stopped, a worker never becomes current again |
| CorePingService.StaleWorkerIdle | WifiStateCore/src/net/orleaf/android/wifistate/core/WifiStatePingService.java:147 | a worker that is not current does nothing |
| ControlService.StartService | WifiStateCore/src/net/orleaf/android/wifistate/core/WifiStateControlService.java:167-188 | the intent carries the action and the sleep; the result is true iff the platform returned a component |
| ControlService.NetAppend | app/src/main/java/net/orleaf/android/wifistate/core/WifiStateControlService.java:100-178 | net registrations add up over concatenated effects |
| ControlService.CancelNet | app/src/main/java/net/orleaf/android/wifistate/core/WifiStateControlService.java:171-178 | cancelling unregisters exactly the observer held |
| ControlService.EnableNet | app/src/main/java/net/orleaf/android/wifistate/core/WifiStateControlService.java:100-119 | enable/disable unregisters exactly the observer held |
| ControlService.IgnoredCommands | app/src/main/java/net/orleaf/android/wifistate/core/WifiStateControlService.java:57-68 | a null intent or an action the service does not know changes nothing and calls nothing |
| ControlService.EnableDisableIdle | app/src/main/java/net/orleaf/android/wifistate/core/WifiStateControlService.java:100-119 | enable and disable request the radio state first and leave the service idle |
| ControlService.ReenableOnDisabled | app/src/main/java/net/orleaf/android/wifistate/core/WifiStateControlService.java:126-135 | re-enable on a disabled radio is exactly enable |
| ControlService.ReenableRegistersOnce | app/src/main/java/net/orleaf/android/wifistate/core/WifiStateControlService.java:126-157 | otherwise it disables the radio and registers an observer only if none exists |
| ControlService.ObserverPostsDelay | app/src/main/java/net/orleaf/android/wifistate/core/WifiStateControlService.java:140-156 | the observer reacts only to DISABLED, by posting an enable after sleep·60·1000 ms; every such broadcast posts another |
| ControlService.DelayArithmetic | app/src/main/java/net/orleaf/android/wifistate/core/WifiStateControlService.java:150 | the delay is the plain product up to 35791 minutes and wraps negative at 35792 |
| ControlService.CallbackReturnsIdle | app/src/main/java/net/orleaf/android/wifistate/core/WifiStateControlService.java:159-166 | the delayed enable enables the radio and returns the service to idle |
| ControlService.DestroyIdle | app/src/main/java/net/orleaf/android/wifistate/core/WifiStateControlService.java:70-73 | destruction cancels everything, unregistering iff an observer exists |
| ControlService.StepBalance | app/src/main/java/net/orleaf/android/wifistate/core/WifiStateControlService.java:57-178 | every event registers or unregisters exactly as much as the observer state changes |
| ControlService.RunBalance | app/src/main/java/net/orleaf/android/wifistate/core/WifiStateControlService.java:57-178 | over any run the net registrations issued equal the change in the held observer |
| ControlService.RunDisciplined | app/src/main/java/net/orleaf/android/wifistate/core/WifiStateControlService.java:57-178 | over any run, at every point of the effects, no observer is registered while one is held and none is unregistered while none is; the effects leave the observer the service ends with |
| ControlService.StepDisciplined | app/src/main/java/net/orleaf/android/wifistate/core/WifiStateControlService.java:57-178 | the same for the effects of one event |
| ControlService.DisciplinedAppend | app/src/main/java/net/orleaf/android/wifistate/core/WifiStateControlService.java:57-178 | discipline composes over concatenated effects |
| ControlService.StartServiceRoundTrip | app/src/main/java/net/orleaf/android/wifistate/core/WifiStateControlService.java:188-203 | an intent built by `startService` dispatches to the handler it names; the two-argument form acts as sleep 0 |
| LegacyControlService.StartService | src/net/orleaf/android/wifistate/WifiStateControlService.java:117-130 | the intent carries the action; the result is true iff a component was started |
| LegacyControlService.AsCurrent | src/net/orleaf/android/wifistate/WifiStateControlService.java:60-108 | effects translate one for one into the current version's |
| LegacyControlService.AsCurrentAppend | src/net/orleaf/android/wifistate/WifiStateControlService.java:60-108 | the translation distributes over concatenation |
| LegacyControlService.IgnoredCommands | src/net/orleaf/android/wifistate/WifiStateControlService.java:33-45 | a null intent or an action the service does not know changes nothing and calls nothing |
| LegacyControlService.EnableDisableIdle | src/net/orleaf/android/wifistate/WifiStateControlService.java:60-72 | enable and disable request the radio state and unregister an observer iff one exists |
| LegacyControlService.ReenableRule | src/net/orleaf/android/wifistate/WifiStateControlService.java:77-98 | a disabled radio is enabled at once; otherwise it is disabled and one observer registered if none exists |
| LegacyControlService.ObserverEnablesAtOnce | src/net/orleaf/android/wifistate/WifiStateControlService.java:77-98 | the observer enables as soon as it sees DISABLED, with no delay |
| LegacyControlService.NoDelayUnlikeCurrent | src/net/orleaf/android/wifistate/WifiStateControlService.java:77-98 | a disable-then-DISABLED sequence enables at once here, where the current version posts a delayed enable and keeps its observer |
| LegacyControlService.StepBalance | src/net/orleaf/android/wifistate/WifiStateControlService.java:33-108 | every event registers or unregisters exactly as much as the observer state changes |
| LegacyControlService.RunBalance | src/net/orleaf/android/wifistate/WifiStateControlService.java:33-108 | over any run the net registrations issued equal the change in the held observer |
| LegacyControlService.RunDisciplined | src/net/orleaf/android/wifistate/WifiStateControlService.java:33-108 | over any run, at every point of the effects, no observer is registered while one is held and none is unregistered while none is |
| LegacyControlService.StepDisciplined | src/net/orleaf/android/wifistate/WifiStateControlService.java:33-108 | the same for the effects of one event |
| Receiver.BodyText | app/src/main/java/net/orleaf/android/wifistate/core/WifiStateReceiver.java:229-232 | the current receiver shows the classifier's detail (IP while connected); the `WifiStateCore` one shows the stored detail |
| Receiver.Show | app/src/main/java/net/orleaf/android/wifistate/core/WifiStateReceiver.java:219-245 | the notification has the given icon and counters; it is ongoing iff the `clearable` preference is off; it is titled "type: name" iff the current receiver knows the name |
| Receiver.UpdateState | app/src/main/java/net/orleaf/android/wifistate/core/WifiStateReceiver.java:133-159 | no change issues nothing; a change notifies first and schedules the clear alarm iff the state is clearable; outside lite builds the current receiver starts the monitor iff wanted and stops it otherwise, while the `WifiStateCore` one does either only with the ping preference on |
| Receiver.Clear | app/src/main/java/net/orleaf/android/wifistate/core/WifiStateReceiver.java:250-255 | cancels the notification, unregisters a held listener and discards the classifier |
| Receiver.Reachability | app/src/main/java/net/orleaf/android/wifistate/core/WifiStateReceiver.java:79-102 | acts iff connected and the flag (default true) differs from the stored one: the warning icon when unreachable, the state icon when reachable, with counters in debug builds |
| Receiver.PingFail | app/src/main/java/net/orleaf/android/wifistate/core/WifiStateReceiver.java:103-114 | asks for a re-enable with the configured period iff so configured and on Wi-Fi |
| Receiver.NetListenAppend | app/src/main/java/net/orleaf/android/wifistate/core/WifiStateReceiver.java:58-71 | listener registrations add up over concatenated commands |
| Receiver.NetListenNone | app/src/main/java/net/orleaf/android/wifistate/core/WifiStateReceiver.java:133-159 | commands without registrations have net zero |
| Receiver.DisabledIgnoresBroadcasts | app/src/main/java/net/orleaf/android/wifistate/core/WifiStateReceiver.java:50-52 | with the enabled preference off a broadcast changes nothing |
| Receiver.BroadcastCreatesState | app/src/main/java/net/orleaf/android/wifistate/core/WifiStateReceiver.java:55-71 | the first enabled broadcast creates the classifier and registers the listener once when data is shown |
| Receiver.ReachabilityOverlay | app/src/main/java/net/orleaf/android/wifistate/core/WifiStateReceiver.java:79-102 | a reachability report never reclassifies and only overlays the icon |
| Receiver.IconOfNotWarn | app/src/main/java/net/orleaf/android/wifistate/core/WifiStateReceiver.java:90-97 | a state icon is never the warning icon, so the two displays are distinguishable |
| Receiver.PingFailRule | app/src/main/java/net/orleaf/android/wifistate/core/WifiStateReceiver.java:103-114 | a ping-fail report requests a re-enable only when configured and on Wi-Fi, and never reclassifies |
| Receiver.CorePingFailFallsThrough | WifiStateCore/src/net/orleaf/android/wifistate/core/WifiStateReceiver.java:58-92 | the `WifiStateCore` receiver treats a ping-fail report as an ordinary broadcast |
| Receiver.ClearAlarmRechecks | app/src/main/java/net/orleaf/android/wifistate/core/WifiStateReceiver.java:115-124 | the alarm clears only a state that is still clearable; otherwise it reclassifies |
| Receiver.NoChangeNoCommands | app/src/main/java/net/orleaf/android/wifistate/core/WifiStateReceiver.java:133-136 | no change: nothing shown, started, stopped or scheduled |
| Receiver.ChangeCommands | app/src/main/java/net/orleaf/android/wifistate/core/WifiStateReceiver.java:136-157 | a change: the notification, then the monitor command, then the alarm iff clearable |
| Receiver.CorePingRule | WifiStateCore/src/net/orleaf/android/wifistate/core/WifiStateReceiver.java:113-132 | in a full `WifiStateCore` build with the ping preference on, a change starts the monitor iff connected, Wi-Fi or mobile, and stops it otherwise; with the preference off it neither starts nor stops it |
| Receiver.LiteNeverPings | app/src/main/java/net/orleaf/android/wifistate/core/WifiStateReceiver.java:138-150 | a lite or free build never starts or stops the monitor |
| Receiver.DispatchAlarmLast | app/src/main/java/net/orleaf/android/wifistate/core/WifiStateReceiver.java:74-128 | after the classifier exists, an alarm is issued only as the last command |
| Receiver.AtMostOneAlarm | app/src/main/java/net/orleaf/android/wifistate/core/WifiStateReceiver.java:151-157 | each event arms at most one alarm, as its last command |
| Receiver.NotificationTitle | app/src/main/java/net/orleaf/android/wifistate/core/WifiStateReceiver.java:223-228 | the current receiver titles a named network "Mobile Data: name" or "Wi-Fi: name" by state; with no name, and always in `WifiStateCore`, the title is the application name |
| Receiver.CountersOnlyInDebugReports | app/src/main/java/net/orleaf/android/wifistate/core/WifiStateReceiver.java:79-102 | a notification carries ping counters only in a debug build and only for a reachability report |
| Receiver.DispatchListenBalance | app/src/main/java/net/orleaf/android/wifistate/core/WifiStateReceiver.java:74-128 | dispatching changes the listener registration by exactly the commands' net |
| Receiver.StepListenBalance | app/src/main/java/net/orleaf/android/wifistate/core/WifiStateReceiver.java:47-128 | each event changes the listener registration by exactly the commands' net |
| Receiver.RunListenBalance | app/src/main/java/net/orleaf/android/wifistate/core/WifiStateReceiver.java:47-175 | over any run the net listener registrations issued equal the change in the held listener |
| Receiver.RunListenDisciplined | app/src/main/java/net/orleaf/android/wifistate/core/WifiStateReceiver.java:47-175 | over any run, at every point of the commands, no listener is registered while one is held and none is removed while none is; the commands leave the listener the receiver ends with |
| Receiver.StepListenDisciplined | app/src/main/java/net/orleaf/android/wifistate/core/WifiStateReceiver.java:47-128 | the same for the commands of one event |
| Receiver.DispatchListenDisciplined | app/src/main/java/net/orleaf/android/wifistate/core/WifiStateReceiver.java:74-128 | the same once the classifier and listener exist |
| LegacyReceiver.Classify | src/net/orleaf/android/wifistate/WifiStateReceiver.java:152-229 | null exactly for radio UNKNOWN, or for radio ENABLED with no rule and the shown state at least WIFI_ENABLED; radio off gives DISABLED or the data verdict |
| LegacyReceiver.SuffixFor | src/net/orleaf/android/wifistate/WifiStateReceiver.java:231-241 | the SSID iff an access point is chosen, one is known and the text object is new; the APN iff on mobile data |
| LegacyReceiver.UpdateState | src/net/orleaf/android/wifistate/WifiStateReceiver.java:152-256 | null does nothing; otherwise the state and message are stored, and commands are issued iff either differs: the notification first, then the alarm iff clearable |
| LegacyReceiver.StartSession | src/net/orleaf/android/wifistate/WifiStateReceiver.java:74-101 | a session starts from DISABLED with every signal re-read, registering the listener iff data is shown |
| LegacyReceiver.Clear | src/net/orleaf/android/wifistate/WifiStateReceiver.java:376-381 | cancels the notification, ends the session and drops the listener |
| LegacyReceiver.ClassifyAgreesWithStateInfo | src/net/orleaf/android/wifistate/WifiStateReceiver.java:184-223 | where the inline classifier decides, it agrees with the classifier object's Wi-Fi and mobile rules |
| LegacyReceiver.NullIsCarryOver | src/net/orleaf/android/wifistate/WifiStateReceiver.java:225-229 | where the inline classifier returns null, the classifier object keeps state and detail |
| LegacyReceiver.NullMeansNoChange | src/net/orleaf/android/wifistate/WifiStateReceiver.java:225-229 | null classification issues nothing and changes nothing |
| LegacyReceiver.ActionCachesOwnField | src/net/orleaf/android/wifistate/WifiStateReceiver.java:110-121 | within a session each action overwrites only its own cached field |
| LegacyReceiver.SessionStartRereads | src/net/orleaf/android/wifistate/WifiStateReceiver.java:74-101 | the first broadcast of a session re-reads every signal and classifies from DISABLED |
| LegacyReceiver.ClearAlarmRechecks | src/net/orleaf/android/wifistate/WifiStateReceiver.java:104-109 | the alarm clears only a still-clearable state, ending the session; otherwise it is an ordinary broadcast |
| LegacyReceiver.SameDataStateIgnored | src/net/orleaf/android/wifistate/WifiStateReceiver.java:136-143 | the listener reclassifies only when the data state changes |
| LegacyReceiver.SameMessageNotShownTwice | src/net/orleaf/android/wifistate/WifiStateReceiver.java:243-253 | the same state with the same message is not shown again |
| LegacyReceiver.StepInv | src/net/orleaf/android/wifistate/WifiStateReceiver.java:66-143 | every event keeps the listener inside a session |
| LegacyReceiver.RunInv | src/net/orleaf/android/wifistate/WifiStateReceiver.java:66-143 | over any run a listener exists only during a session |
| AssembleReceiver.IconFor | src/net/assemble/wifistate/WifiStateReceiver.java:142-163 | 1..8 get their own state drawable, 0 the application icon, anything else resource 0 |
| AssembleReceiver.Rule | src/net/assemble/wifistate/WifiStateReceiver.java:67-118 | 0 exactly for radio off; every fresh verdict is a state 2..8 |
| AssembleReceiver.Code | src/net/assemble/wifistate/WifiStateReceiver.java:67-123 | negative exactly for "no change", otherwise 0..10 |
| AssembleReceiver.Step | src/net/assemble/wifistate/WifiStateReceiver.java:36-140 | no change does nothing; radio off forgets the cache, stores 0 and cancels; otherwise the code is stored and the notification issued iff code or message differs |
| AssembleReceiver.RadioOffClears | src/net/assemble/wifistate/WifiStateReceiver.java:67-73 | DISABLING/DISABLED forgets link, supplicant and latch, stores 0 and cancels |
| AssembleReceiver.EnablingAndEnabled | src/net/assemble/wifistate/WifiStateReceiver.java:74-82 | ENABLING gives 2; ENABLED gives 3 only below 2, otherwise no change |
| AssembleReceiver.RuleCodes | src/net/assemble/wifistate/WifiStateReceiver.java:84-118 | whatever the non-off radio, links give 7 and 8, the supplicant table gives 4, 5, 6, and the latch with a null supplicant gives 5 |
| AssembleReceiver.AgreesWithLaterClassifier | src/net/assemble/wifistate/WifiStateReceiver.java:84-118 | where both decide under radio ENABLED with the latch set, the integer code is the later classifier's state rank |
| AssembleReceiver.NoChangeDoesNothing | src/net/assemble/wifistate/WifiStateReceiver.java:120-123 | "no change" keeps the shown state and message and issues nothing |
| AssembleReceiver.SameNotShownTwice | src/net/assemble/wifistate/WifiStateReceiver.java:132-139 | the same state and message are not shown again |

## Left out

- Android I/O is not modelled: broadcasts, intents, `Context`, threads, sleeping, toasts and logging. Each call is an input or a command in an output list.
- The real ping (a `ping -c 1` process and name resolution) is a sequence of probe results supplied as input.
- `getExtraInfo` formatting (frequency, speed, signal strength text), the reflection call for screen state and the network interface enumeration are inputs or left out. They are display details that rely on the platform.
- `WifiStateCore/.../NetworkStateInfo.java` is not part of this model. The `WifiStateCore` receiver runs over the current classifier, and its `getStateMessage` is taken to be the stored detail.
- Resource strings and drawables are keys, not text. Identical keys stand for equal strings.
- Java reference comparison of a detail string (`message != notifyMessage`) is an input flag (`Reading.refDiffers`), because object identity is not visible in the source.
- An intent whose action is null is not representable: an action is always a string. Java throws on such an intent at src/net/assemble/wifistate/WifiStateReceiver.java:57 and in each control service (app/src/main/java/net/orleaf/android/wifistate/core/WifiStateControlService.java:59, WifiStateCore/src/net/orleaf/android/wifistate/core/WifiStateControlService.java:38, src/net/orleaf/android/wifistate/WifiStateControlService.java:37). The other receivers check the action for null first.
- ControlService.IgnoredCommands: `None` is a null intent, which the service ignores. A non-null intent with a null action, which throws, is not modelled.
- LegacyControlService.IgnoredCommands: `None` is a null intent, which the service ignores. A non-null intent with a null action, which throws, is not modelled.
- The platform replaces a pending alarm with the same intent. The model proves that each event arms at most one alarm and that it is the last command, and relies on the replacement for "at most one pending".
- Counters (`mNumPing`, `mNumOk`, `mNumNg`, the failure counter) are unbounded integers; their 32-bit overflow after 2^31 pings is not modelled.
- The debug counters are kept as two integers, not formatted into the body text.
- The activities, the preference screens, the launch receiver and service, and the about and status screens are outside the core.
- Receiver.Show: ongoing is the negated `clearable` preference. The auto-cancel flag and the intent attached to the notification are not modelled.
- PingService.CurrentWorkerRound: the interval sleep between rounds is not modelled; a round is one event.

## Findings

| source | as written | input that shows it | evidently intended | confidence | as-written member | corrected member |
|---|---|---|---|---|---|---|
| app/src/main/java/net/orleaf/android/wifistate/core/NetworkStateInfo.java:493-494 | 2412..2484 MHz maps to `(freq - 2412) / 5 + 1` | 2484 MHz (channel 14's centre) gives 15 | 2484 MHz is channel 14, the top of the 2.4 GHz band | not executed | Channel.Channel2484AsWritten | Channel.IeeeBand24Channels |

## Behaviour worth noting

- The classifier is not idempotent in two cases.
  - Radio UNKNOWN leaves the detail null, so every repeat reports a
    change (`NetworkStateInfo.RepeatUpdateUnknownRadio`).
  - A SCANNING state that the mobile override turns into DISABLED is
    raised to WIFI_ENABLED on the next call
    (`NetworkStateInfo.RepeatUpdateScanningOverride`).
- In the first, integer-state receiver, the link and supplicant rules apply
  under any radio state that is not off. Its supplicant table is not
  guarded by the connected latch (`AssembleReceiver.RuleCodes`).
- The control service's observer posts another delayed enable for every
  DISABLED broadcast it sees, and the platform queues each one
  (`ControlService.ObserverPostsDelay`).
