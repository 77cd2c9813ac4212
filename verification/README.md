# Apple Pay Cordova plugin: a Dafny model of the native plugin's logic

The plugin `ApplePayPlugin` bridges two JavaScript calls to PassKit. This
project models the logic the plugin itself owns, which comes in three parts:

- **Capability prober** (`canMakePayment`). It guards the argument shape. It
  maps network names case-insensitively to `visa`/`mastercard`/`amex` and drops
  unknown names. It maps capability names (`3DS`, `CREDIT_CARD`, `DEBIT_CARD`,
  matched exactly) to a set. It always answers `{canMakePayments: b}` as a
  success.
- **Request builder** (`requestPayment` and `getFromRequest`). It stores the
  callback id first. It then reads the six required keys in a fixed order and
  reports `"<key> is required"` for the first one missing, or
  `"Invalid arguments"` when there is no dictionary. On this path networks are
  kept as lower-cased raw values and capabilities are read as unsigned
  integers (`UInt(name) ?? 0`), so the names the prober recognises select
  nothing here. The sheet is presented once if the platform can build it;
  otherwise the error `"Unable to present Apple Pay authorization view controller"` is sent.
- **Authorization relay** (the two payment-sheet delegate callbacks). The
  plugin keeps three fields: `paymentCallbackId`, `successfulPayment` and
  `paymentResult`. *Authorize* raises the flag and stashes the result
  record; the method type is classified as debit/credit/store/prepaid/unknown.
  *Finish* sends the serialised record, `"Failed to parse payment result"` or
  `"Payment cancelled"`. It then lowers the flag and dismisses the sheet. It
  never clears `paymentResult`.

Modules: `Wrappers` (Option/Result), `Values` (the bridged JavaScript values
and the `as? [String]` cast), `Text` (lower-casing), `Decimal` (Swift's
`UInt(_: String)`), `CapabilityProber`, `RequestBuilder`, `AuthorizationRelay`
and `ApplePayPlugin`. The last one holds the plugin state, the four
transitions and lemmas about runs of events.

Every transition is a pure function. It returns the next state and a log of
effects: `Send(callbackId, status, message)`, `QueryPlatform`, `Present`,
`CompleteAuthorization` and `Dismiss`. The platform's answers are parameters
of the transitions: the result of `canMakePayments(usingNetworks:capabilities:)`,
whether `PKPaymentAuthorizationViewController` can be built for a request, and
the JSON serialisation of the stashed record (which may fail).

Two details of the code are easy to misread:

- The `VISA/MASTERCARD/AMEX/UNKNOWN` label computed at
  src/ios/ApplePayPlugin.swift:108-119 is never used. The emitted `network`
  field is the platform's raw value, or `""` when absent (line 136).
- A non-string `label` in a summary item traps at the forced cast. A
  non-string `amount` reaches `NSDecimalNumber(string:)` as `nil` (line 74).

The relay does not defend against out-of-order callbacks. An authorization
that is never followed by a finish leaves the success flag raised, and a new
request overwrites only the callback id (line 53). The next finish therefore
delivers the old stashed result, as a success, to the new request's callback
id. `StaleAuthorizationAnswersNewRequest` states this.

## Model

| member | source | states |
|---|---|---|
| Values.AsStringList | src/ios/ApplePayPlugin.swift:12-13 | the cast to `[String]` succeeds exactly on a list of strings, and yields those strings in order |
| Text.Lower | src/ios/ApplePayPlugin.swift:19 | lower-casing keeps the length, leaves no upper-case letter, and changes only upper-case letters, each to its lower-case partner |
| Decimal.ParseUInt | src/ios/ApplePayPlugin.swift:70 | `UInt(_:)` yields only values that fit in 64 bits, rejects the empty string, and accepts a minus sign only for zero; a string of digits is accepted exactly when its decimal value fits in 64 bits, and then reads as that value |
| Decimal.DigitsValueOfRender | src/ios/ApplePayPlugin.swift:70 | the digits of the decimal spelling of n evaluate back to n |
| Decimal.ParseRender | src/ios/ApplePayPlugin.swift:70 | every 64-bit unsigned value, spelled in decimal, is read back by `UInt(_:)` as itself |
| Decimal.OverflowDoesNotParse | src/ios/ApplePayPlugin.swift:70 | the decimal spelling of a value beyond 64 bits is rejected, so `?? 0` applies; nothing wraps around |
| Decimal.SignedParse | src/ios/ApplePayPlugin.swift:70 | a leading plus sign reads as the unsigned value; a leading minus sign is accepted only in front of zero |
| Decimal.DigitsValueZeroPadded | src/ios/ApplePayPlugin.swift:70 | leading zeros do not change the value of a digit string |
| Decimal.ZeroPaddedParse | src/ios/ApplePayPlugin.swift:70 | a zero-padded spelling reads as the value it spells when that fits in 64 bits and is rejected otherwise |
| Decimal.NonNumericDoesNotParse | src/ios/ApplePayPlugin.swift:70 | a string holding a character that is neither a digit nor a leading sign is rejected, so `?? 0` applies |
| CapabilityProber.RecogniseNetwork | src/ios/ApplePayPlugin.swift:19-30 | a name selects network n exactly when its lower-cased form is n's name |
| CapabilityProber.Compact | src/ios/ApplePayPlugin.swift:31 | `compactMap` keeps exactly the present values and never lengthens the list |
| CapabilityProber.CompactAppend | src/ios/ApplePayPlugin.swift:31 | `compactMap` distributes over concatenation, so it keeps the input order |
| CapabilityProber.LowerAll | src/ios/ApplePayPlugin.swift:19 | every name is lower-cased in place, and the list keeps its length |
| CapabilityProber.ClassifyAll | src/ios/ApplePayPlugin.swift:20-30 | every lower-cased name is run through the network switch in place |
| CapabilityProber.MapNetworks | src/ios/ApplePayPlugin.swift:19-31 | the output is no longer than the input, and a network occurs in it exactly when some input name is recognised as that network |
| CapabilityProber.MapNetworksAppend | src/ios/ApplePayPlugin.swift:19-31 | mapping a concatenation is the concatenation of the mappings: input order is preserved |
| CapabilityProber.MapNetworksSingle | src/ios/ApplePayPlugin.swift:20-31 | one name maps to its network when recognised and to nothing otherwise |
| CapabilityProber.UnknownNetworkDropped | src/ios/ApplePayPlugin.swift:28-31 | inserting an unrecognised name anywhere leaves the network list unchanged; it is dropped, not an error |
| CapabilityProber.MapNetworksIgnoresCase | src/ios/ApplePayPlugin.swift:19-27 | lists that agree after lower-casing select the same networks |
| CapabilityProber.MapCapabilities | src/ios/ApplePayPlugin.swift:33-44 | a capability is in the set exactly when some name spells it exactly; unrecognised names contribute nothing |
| CapabilityProber.MapCapabilitiesOrderFree | src/ios/ApplePayPlugin.swift:33-44 | lists with the same names, in any order and with any repetition, give the same capability set |
| CapabilityProber.ProbeArguments | src/ios/ApplePayPlugin.swift:11-13 | the guard passes exactly when the argument is a dictionary whose two list fields are both string lists, and it yields those lists |
| RequestBuilder.GetFromRequest | src/ios/ApplePayPlugin.swift:95-101 | a present key yields its value; an absent key yields `"<key> is required"` |
| RequestBuilder.FirstAbsentUnique | src/ios/ApplePayPlugin.swift:60-65 | some required key is missing exactly when there is a first missing one, and that first one is unique |
| RequestBuilder.Assemble | src/ios/ApplePayPlugin.swift:67-75 | with every key present, the request copies the three codes, keeps every network name lower-cased in place, takes exactly the capability bits some name denotes, and carries one summary item per entry with that entry's label and amount text |
| RequestBuilder.BuildRequest | src/ios/ApplePayPlugin.swift:55-75 | validation succeeds exactly when all six keys are present, with the request read straight from the dictionary; otherwise it fails with an "is required" message for a required key |
| RequestBuilder.BuildRequestReportsFirstAbsent | src/ios/ApplePayPlugin.swift:60-65 | the error names the first missing key in the order countryCode, currencyCode, merchantIdentifier, supportedNetworks, merchantCapabilities, paymentSummaryItems |
| RequestBuilder.RequestNetworks | src/ios/ApplePayPlugin.swift:69 | the request path keeps every network name, lower-cased, in order; none is dropped |
| RequestBuilder.CapabilityMask | src/ios/ApplePayPlugin.swift:70 | a bit is in the option set exactly when the raw value of some name contains it |
| RequestBuilder.CapabilityMaskOrderFree | src/ios/ApplePayPlugin.swift:70 | the order and repetition of the names do not change the option set |
| RequestBuilder.NumericCapability | src/ios/ApplePayPlugin.swift:70 | a decimal spelling selects exactly the bits of the number it spells |
| RequestBuilder.CapabilityNamesSelectNothing | src/ios/ApplePayPlugin.swift:70 | the names the prober recognises select the empty option set on the request path, while the prober gives a non-empty set for them |
| RequestBuilder.SummaryItems | src/ios/ApplePayPlugin.swift:73-75 | one item per entry, carrying its label; the amount text is present exactly when `amount` is a string, and is then that string |
| AuthorizationRelay.TypeName | src/ios/ApplePayPlugin.swift:120-133 | debit, credit, store and prepaid get names that read back as the same kind; every other kind, including future ones, gets "unknown" |
| AuthorizationRelay.TypeNameRoundTrip | src/ios/ApplePayPlugin.swift:120-133 | reading a classification back gives the kind itself for a named kind and the unknown kind otherwise, and "unknown" is produced exactly for the kinds that are not named |
| AuthorizationRelay.FromValueToValue | src/ios/ApplePayPlugin.swift:134-144 | the result dictionary carries every field of the result: reading it back gives the result unchanged |
| AuthorizationRelay.Summarize | src/ios/ApplePayPlugin.swift:107-138 | the result keeps the transaction id, the decoded data, the display name and the raw network value; undecodable data, a missing display name and a missing network each become `""`; the type reads back as the method's kind when that kind is named, and is `"unknown"` otherwise |
| AuthorizationRelay.ToValue | src/ios/ApplePayPlugin.swift:134-144 | the record has exactly the keys transactionIdentifier, paymentData, paymentMethod, and the method dictionary has exactly displayName, network, type |
| AuthorizationRelay.ResultRecord | src/ios/ApplePayPlugin.swift:134-144 | the stashed record has exactly the keys transactionIdentifier, paymentData and paymentMethod, whose dictionary has exactly displayName, network and type; reading it back gives the summarised payment |
| ApplePayPlugin.CanMakePayment | src/ios/ApplePayPlugin.swift:9-50 | no field changes, and exactly one result goes to the command's callback id, as the last effect. Bad arguments give only `"Invalid arguments"`, with no platform query. Good arguments give a success carrying the platform's answer for the mapped networks and capabilities |
| ApplePayPlugin.RequestPayment | src/ios/ApplePayPlugin.swift:52-93 | the callback id is stored. Every error goes to that id, and there is exactly one effect. The sheet is presented exactly when all keys are present and the platform can build it. Otherwise the error is "Invalid arguments", the first missing key's message, or the presentation error |
| ApplePayPlugin.DidAuthorizePayment | src/ios/ApplePayPlugin.swift:103-145 | the flag is raised, the callback id is kept, the stashed record is the payment's result record (exactly its keys, reading back as the summarised payment), and only the platform acknowledgement is emitted |
| ApplePayPlugin.DidFinish | src/ios/ApplePayPlugin.swift:147-162 | one result goes to the stored id and then the sheet is dismissed. It is a success carrying the serialised record exactly when authorized and serialisation succeeds. Without authorization the result is "Payment cancelled"; when serialisation fails it is the parse failure. The flag ends lowered and the record is kept |
| ApplePayPlugin.Apply | src/ios/ApplePayPlugin.swift:5-7 | every transition keeps a stashed result behind a raised flag, and only authorization raises the flag |
| ApplePayPlugin.RunAppend | src/ios/ApplePayPlugin.swift:5-7 | running two event sequences one after the other equals running their concatenation |
| ApplePayPlugin.RunKeepsConsistent | src/ios/ApplePayPlugin.swift:5-7 | in every run a raised success flag has a stashed result behind it |
| ApplePayPlugin.FreshPluginRun | src/ios/ApplePayPlugin.swift:5-7 | from a freshly loaded plugin every run keeps a raised flag backed by a stashed result, and a run without an authorization delivers no payment success |
| ApplePayPlugin.NoSuccessWithoutAuthorization | src/ios/ApplePayPlugin.swift:147-160 | from a lowered flag, with no authorization event, the flag stays lowered and no payment success is ever delivered |
| ApplePayPlugin.SecondFinishCancels | src/ios/ApplePayPlugin.swift:155-160 | after a finish, a later finish with no authorization in between reports exactly "Payment cancelled" |
| ApplePayPlugin.CompletedPayment | src/ios/ApplePayPlugin.swift:52-162 | request, authorize and finish give: present, acknowledge, the serialised result (or the parse failure) to the request's callback id, dismiss; the flag ends lowered |
| ApplePayPlugin.CancelledPayment | src/ios/ApplePayPlugin.swift:52-158 | from a state whose success flag is lowered, a presented request finished without authorization gives "Payment cancelled" to the request's callback id, then dismiss |
| ApplePayPlugin.StaleAuthorizationAnswersNewRequest | src/ios/ApplePayPlugin.swift:53-151 | from a state with a raised flag and a stashed result (an authorization never finished), a new presented request finished without authorization receives the old serialised result as a success on its own callback id |
| ApplePayPlugin.UnknownNetworkIgnoredByQuery | src/ios/ApplePayPlugin.swift:19-49 | an unrecognised network name changes nothing `canMakePayment` emits |

## Left out

- `www/applepay.js` forwards both calls unchanged to `cordova/exec`. It holds no logic.
- PassKit is not modelled. `canMakePayments(usingNetworks:capabilities:)`, building `PKPaymentAuthorizationViewController` and `JSONSerialization` are parameters of the transitions. Presenting, dismissing and the authorization completion handler are recorded effects. Whether the platform accepts the lower-cased raw network values of the request path is platform behaviour.
- Cordova's `commandDelegate.send` and `CDVPluginResult` appear only as `Send` effects in the log.
- UTF-8 decoding of the token bytes is the platform's. A `Payment` carries the decoded text, or none when decoding fails. `NSDecimalNumber(string:)` is not modelled: a summary item keeps the amount text it would be given.
- The forced casts (`as!`) trap the process rather than reporting an error (src/ios/ApplePayPlugin.swift:60-65, 74). So does indexing an empty argument array (lines 11, 56). These are preconditions (`CastsHold`, `RequestCastsHold`, `Admissible`), stated per key in the order the code reaches each cast.
- Text.Lower: it changes only ASCII letters. Swift's `lowercased()` uses full Unicode case mapping. No non-ASCII character lowercases to any of `visa`, `mastercard` or `amex`, so network recognition is unaffected. The raw values kept on the request path may differ for non-ASCII input.
- The `networkString` label (src/ios/ApplePayPlugin.swift:108-119) is unused. It also refers to `paymentMethod` before that constant is declared, at line 134. It has no observable effect.
- The generic `catch` (src/ios/ApplePayPlugin.swift:85-86) cannot be reached, because only `ValidationError` is thrown inside the `do` block.
- Threading, animation and the order in which the platform calls the delegates are not modelled. Runs are arbitrary event sequences, so repeated or out-of-order callbacks are covered as the code handles them.
- Bridged JavaScript numbers are integers in `Values.Value`. No modelled path reads a number.
