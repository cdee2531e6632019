# liboculus: sonar configuration and status receiver

A Dafny model of the two stateful components of the liboculus driver for
Oculus imaging sonars.

- `SonarConfiguration` keeps the one live simple-fire command the driver
  sends to the sonar. It fills in the header and defaults on construction.
  Range, gain and gamma are changed only by bounded setters, which ignore
  out-of-range input. Ping rate and frequency mode are assigned without a
  check. Every setter ends by notifying the registered observer. The command
  can be serialised into a caller-owned stream.
- `StatusRx` listens on UDP port 52102 for status broadcasts. It keeps one
  asynchronous receive outstanding. Each completion either updates the
  status, counts it and re-arms, or stops the receive loop.

Files:

- `wire.dfy` (module `Wire`): the records exchanged with the sonar. The SDK
  header that fixes their byte layouts is not part of this model, so a
  `Layout` value carries the sizes of the header, the command and the status
  record, and the command's native-order byte image. The only assumptions
  about it are those any C layout meets: the header is smaller than the
  command, the status record is not empty, and the image is exactly one
  command long.
- `sonar_configuration.dfy` (module `Configuration`): pure functions for
  each operation over an abstract `ConfigState`, lemmas about batches of
  setter calls, and the class `SonarConfiguration`. Each method of the class
  is proved to perform exactly the matching abstract step.
- `status_rx.dfy` (module `StatusReceiver`): the completion handler as a
  function over `RxState`, the receive loop driven by a sequence of
  completions, and the class `StatusRx`. Its invariant bounds the
  outstanding receives to one and keeps the invalid counter at zero.

Behaviour of the code that the model follows:

- `sendCallback` clears the postpone flag before it tests it
  (lib/SonarConfiguration.cpp:95-97). So `postponeCallback()` never
  suppresses a notification. There is no resume or flush operation.
- `setGamma` stores the input truncated to an integer, so `setGamma(0.5)`
  stores 0. Gamma stays in [0, 127], not (0, 127].
- A datagram of the wrong size is neither counted nor followed by a new
  receive, so the receive loop stops there (lib/StatusRx.cpp:99-102). The
  invalid counter is never incremented. The loop is not self-healing: it
  ends at the first error or wrong-sized datagram.
- The default flags 0x19 also set bit 4, which the comment describing bits
  0 to 3 does not mention.

## Model

| member | source | states |
|---|---|---|
| `Configuration.DefaultMessage` | lib/SonarConfiguration.cpp:42-88 | the default command has the fixed header and the bounds invariant, and its flags select range in meters and the simple return message, with 8-bit data and no gain sent |
| `Configuration.SonarConfiguration.constructor` | lib/SonarConfiguration.cpp:42-88 | header oculusId 0x4f53, kind simple-fire, device ids 0, payload size = command size minus header size; high-frequency mode, network speed 0xff, gamma 127, normal ping rate, range 2, gain 50, flags 0x19, speed of sound 0, salinity 0; postpone flag down, no observer, and the object invariant holds |
| `Configuration.WithRange` | lib/SonarConfiguration.cpp:102-108 | range takes the input if and only if it lies in (0, 40]; otherwise the command is unchanged; no other field changes; range stays in (0, 40] |
| `Configuration.WithGain` | lib/SonarConfiguration.cpp:113-117 | gain takes the input if and only if it lies in (0, 100]; otherwise the command is unchanged; no other field changes; gain stays in (0, 100] |
| `Configuration.WithGamma` | lib/SonarConfiguration.cpp:122-126 | for input in (0, 127] the 8-bit gamma is the input truncated to an integer; otherwise the command is unchanged; no other field changes; gamma stays within 127 |
| `Configuration.Apply` | lib/SonarConfiguration.cpp:102-141 | no setter touches the header; every setter preserves the bounds; ping rate and frequency mode are assigned whatever their value, and nothing else changes |
| `Configuration.Postpone` | lib/SonarConfiguration.cpp:90-92 | raises the postpone flag and changes nothing else |
| `Configuration.Notify` | lib/SonarConfiguration.cpp:94-98 | afterwards the postpone flag is down; a registered observer receives the current command whether or not the flag was raised; without an observer nothing is recorded |
| `Configuration.Step` | lib/SonarConfiguration.cpp:102-141 | one setter call: the command is updated as `Apply` says, the postpone flag is down, and a registered observer is notified exactly once, whether the input was accepted or not |
| `Configuration.RunKeepsConsistent` | lib/SonarConfiguration.cpp:102-141 | after any sequence of setter calls the header is unchanged and range, gain and gamma stay in bounds |
| `Configuration.RunNotifiesEachCall` | lib/SonarConfiguration.cpp:94-141 | with an observer, a sequence of n setter calls adds exactly n notifications after the earlier ones; the j-th carries the command as the j-th call left it; the postpone flag ends down |
| `Configuration.RunWithoutObserverIsSilent` | lib/SonarConfiguration.cpp:97 | without an observer, no setter call notifies anyone |
| `Configuration.PostponeHasNoEffect` | lib/SonarConfiguration.cpp:90-97 | after any non-empty sequence of setter calls, the state is the same whether or not `postponeCallback` was called first |
| `Configuration.SonarConfiguration.SetCallback` | lib/SonarConfiguration.cpp:97 | fills the observer slot that `sendCallback` tests; nothing else changes |
| `Configuration.SonarConfiguration.PostponeCallback` | lib/SonarConfiguration.cpp:90-92 | performs `Postpone` on the object |
| `Configuration.SonarConfiguration.SendCallback` | lib/SonarConfiguration.cpp:94-98 | performs `Notify` on the object |
| `Configuration.SonarConfiguration.SetRange` | lib/SonarConfiguration.cpp:102-111 | performs `Step` with the range setting and keeps the object invariant |
| `Configuration.SonarConfiguration.SetGainPercent` | lib/SonarConfiguration.cpp:113-120 | performs `Step` with the gain setting and keeps the object invariant |
| `Configuration.SonarConfiguration.SetGamma` | lib/SonarConfiguration.cpp:122-129 | performs `Step` with the gamma setting and keeps the object invariant |
| `Configuration.SonarConfiguration.SetPingRate` | lib/SonarConfiguration.cpp:131-135 | performs `Step` with the ping-rate setting (unconditional) and keeps the object invariant |
| `Configuration.SonarConfiguration.SetFreqMode` | lib/SonarConfiguration.cpp:137-141 | performs `Step` with the frequency-mode setting (unconditional) and keeps the object invariant |
| `Configuration.SonarConfiguration.SerializeTo` | lib/SonarConfiguration.cpp:161-171 | appends exactly one command's worth of bytes, equal to the command's byte image, and modifies only the stream; two calls with no mutation in between append identical bytes |
| `StatusReceiver.Handled` | lib/StatusRx.cpp:94-119 | an error-free completion of exactly one status record updates the status with exactly its bytes, hands the status to a registered observer, adds 1 to the valid counter and re-arms. An error or a wrong-sized datagram changes neither status nor counters, notifies no one and leaves nothing armed. The invalid counter never changes |
| `StatusReceiver.LeadingAccepted` | lib/StatusRx.cpp:96-102 | the number of completions at the head of a sequence that the handler accepts: all before it are accepted, the one at it is not |
| `StatusReceiver.RunStopsAtFirstRejected` | lib/StatusRx.cpp:94-119 | the loop handles completions up to the first one not accepted and stops there. The valid counter grows by the number of accepted completions before it, and the status folds in exactly their bytes, in order. A registered observer is called once for each of them. The invalid counter is unchanged. A receive stays armed only if every completion was accepted |
| `StatusReceiver.RunDeliversInOrder` | lib/StatusRx.cpp:104-111 | a registered observer keeps the statuses it already had, and for each accepted completion in turn it is handed the updated status: the earlier records followed by the records of the accepted completions up to and including that one |
| `StatusReceiver.StatusRx.constructor` | lib/StatusRx.cpp:49-60 | port 52102, valid = invalid = 0, input buffer of one status record (the layout's status size), no observer; then connects, so exactly one receive is armed if the socket opened and none otherwise |
| `StatusReceiver.StatusRx.SetCallback` | lib/StatusRx.cpp:106 | fills the observer slot that `handleRead` tests; nothing else changes |
| `StatusReceiver.StatusRx.DoConnect` | lib/StatusRx.cpp:66-83 | if the socket opened, it is bound and exactly one receive is armed; otherwise nothing is armed; counters and status do not change |
| `StatusReceiver.StatusRx.StartReader` | lib/StatusRx.cpp:85-92 | arms one more receive and changes nothing else |
| `StatusReceiver.StatusRx.HandleRead` | lib/StatusRx.cpp:94-119 | performs `Handled` on the object. It keeps the invariant: at most one receive outstanding, receives armed once on connect and once per valid status, invalid counter zero |

## Left out

- The archival file write in `serializeTo` and its file name from the wall clock (lib/SonarConfiguration.cpp:143-159, 167-168): clock and file-system I/O.
- Boost.Asio: the io_service, the socket's open, set_option, bind and async_receive calls, and the unused deadline timer. The socket is abstracted to a count of outstanding receives. Whether `open` succeeded is a constructor argument. A completion is an event. A completion never transfers more bytes than the buffer holds (`Deliverable`).
- `StatusReceiver.StatusRx.DoConnect`: `set_option` and `bind` are the throwing overloads. A failure in either raises an exception out of `doConnect` and the constructor, which the model does not represent. In particular, when `open` fails, `set_option` runs on a closed socket before the warning branch is reached.
- g3log logging: it is a side-effect sink only.
- The concrete layouts and byte order of `OculusMessageHeader`, `OculusSimpleFireMessage` and `OculusStatusMsg`, defined in Oculus/Oculus.h, which is not part of this model. Their sizes and the command's byte image are the `Layout` parameter. The header's version and spare fields, zeroed by `memset`, are not modelled.
- `SonarStatus::update`: its implementation is not part of this model. A status is represented by the sequence of status records folded into it.
- The observer's own effects: a notification is recorded as the command (or status) it carries. An observer that calls back into the object is not modelled. The inline setters that register observers are in headers that are not part of this model.
- include/liboculus/SimpleFireMessage.h declares a class with no method bodies, so it has no behaviour to model.
- IEEE doubles: range, gain, speed of sound, salinity and the gamma input are reals. NaN and rounding are not modelled. The double-to-uint8 conversion of gamma is truncation, which for the accepted positive inputs is the floor.
- The valid and invalid counters are unbounded naturals: their integer width and wrap-around are not modelled.
