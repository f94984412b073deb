# Verified model of the AITSM telemetry pipeline

A battery-powered device samples its temperature and battery level, keeps the
readings in a small buffer, sends them over MQTT QoS 1 as Sparkplug B messages,
and forgets them only when the broker has acknowledged them. An ingest service
takes the messages from the broker, writes rows to the database, and
acknowledges a message only when its rows are stored. This project models both
firmwares (`Original` and `Simple`), the codec, and the ingest service in Dafny
4.11. It proves that no reading is lost and none is acknowledged wrongly, and it
gives the exact conditions where the programs fall short: when a publish stops
being retransmitted and the service waits for it, when the simple firmware loses
a reading, when its loop is idle although it has a connection, which timestamps
the database keeps and which it refuses, and when the ingest service can no longer
acknowledge anything. `dafny verify dfyconfig.toml` checks everything.

## How it is organised

**Codec.** `Wire` is the protobuf wire format, `Sparkplug` the encoder,
`FieldDecoder` and `PayloadDecoder` the hand-written decoder, `Floating` and
`UnixTime` the binary32 and binary64 arithmetic that readings and timestamps go
through, `SparkplugRows` the rows, `EscapeTag` the tag escaping. `CodecRoundTrip`
and `NdataRows` compose them. The other modules say what each of these means without
its loops: `SparkplugWire` and `MessageBytes` field by field and byte by byte what is
sent (`TestVectors` has values of the repository's own test messages),
`PayloadMeaning` and `Utf8` what is accepted as a payload and what it decodes to,
`DecodingErrors` what is raised otherwise,
`RowMeaning` which messages are accepted and which rows they give, `Rounding` that
the arithmetic rounds to the nearest value, `MillisecondKeys` what milliseconds
become.

**Full firmware.** `DataTransmission`, `MqttClient`, `MeasurementService`,
`ReconnectPolicy` and `AppController` hold the C files as classes; what each
critical section does is also a function. `PublishProtocol` and `Device`
interleave those functions: the system work queue, the MQTT work queue and the
helper's callbacks take one atomic operation, lock region or queue operation at
a time. `PublishBuffer`, `PublishPackets`, `PublishPacing` and `PublishSound` are
the invariant of the publish protocol alone. `Sequential` shows that a handler
that runs undisturbed in this machine has the effect the class contracts state.
`DeviceFrames` says what each kind of step leaves alone. `DeviceSound`,
`DeviceCompletions`, `DeviceOutbox`, `DeviceRequests`, `DevicePayloads`, `DeviceWake`,
`DeviceTimer`, `DeviceAttempts`, `DeviceReconnect`, `DeviceProgress`, `DeviceBdSeq`, and
`DeviceConnection`, `DeviceBirthAcked` and `DeviceBirthFirst` together, prove what
holds over every run; `DeviceExample` is one run from power-up to a delivered
reading, `DeviceAbandoned` one to a publish that is given up.

**Simple firmware.** `SimpleBatch` and `SimpleApp` hold the C files as classes,
`SimpleDevice` interleaves them with the callbacks and their coalescing event
bits, and `SimpleSequential` shows that a round that runs undisturbed has the
effect the class states. `SimplePayloads` and `SimpleBirthFirst` are about its packets,
`SimpleTimes` about its deadlines, waits and counters. `SimpleLoss` and
`SimpleStranded` say exactly when it loses a reading and when its loop misses a
connection; `SimpleCounterexample` is a run to a loss.

**Outbox.** `Outbox` says what both firmwares are to the outside;
`DeviceRefines` and `SimpleDevice` prove that each refines it.

**Ingest service.** `DeliveryWorker` is the class; `Delivery` interleaves its
two threads with a broker session and a database; `DeliverySafety` and
`DeliveryOrder` prove what its acknowledgements mean, `DeliveryProgress` when they
can still come and how long the writer waits.

**Together.** `MessageRows` says what becomes of a device's message in the service
and the database, `Composition` puts any firmware, the broker, the ingest service
and the database together; `EndToEnd` is that for the full firmware,
`SimpleEndToEnd` for the simple one.

## Assumptions

- The callbacks of the one MQTT helper are serialised, and an accepted connect
  or disconnect request is answered by a callback.
- A packet identifier is non-zero and fresh within a connection (section 2.3.1
  of MQTT 3.1.1). A PUBACK reaches the device only in the connection of its packet.
- The application's event queue, 16 entries long, does not overflow while the
  interleaved machine runs. The class `AppController` has the bound.
- The device does not reboot. Submitting the event and disconnect work items
  succeeds; submitting a publish or a connect may fail.
- Nothing is assumed about times and temperatures of readings, but for the exact
  rows of `EveryReadingIsStored`: those are for timely readings, taken after April
  1970 in a second that fits a binary64 number of nanoseconds, as every second
  until 2116 does (`UnixTime.FitsUntil2116`).
- The names of group and edge node have at most 47 characters together, so that the
  topics fit the 64 bytes both firmwares have for them.
- The broker keeps the session, redelivers unacknowledged messages in order on
  every connection (sections 4.4 and 4.6 of MQTT 5.0) and respects Receive
  Maximum (section 4.9) where a lemma says so. PUBACKs not received before a
  connection breaks are lost.
- A database write is applied before the call returns, or never; it may report
  failure although it was applied. Whether the database refuses rows with HTTP
  400 depends on the rows alone. `Composition` assumes it refuses none.
- The simple firmware's guarantees are for runs without a harmful step
  (`SimpleDevice.Harmful`, see Findings). The full firmware needs no such thing.

## Findings

- The full firmware can stop retransmitting a publish. If the PUBACK timer fires
  while a call of `aitsm_mqtt_publish_payload` holds `publish_pending` on its way
  to `-EBUSY`, the handler returns and nobody arms the timer again. Over every
  run, an active publish with LTE up is timed, written or retried if and only if
  this has not happened since it became active
  (`DeviceTimer.AttendedIffNotAbandoned`). It cannot happen to the publish the
  measurement service waits for (`DeviceTimer.RetransmissionGoesOn`), but to one
  of an earlier session: `DeviceAbandoned.PublishIsAbandoned` is a run from
  power-up. From then on the service's NBIRTH is refused with `-EBUSY` and
  nothing is handed over until the old PUBACK comes after all or a new generation
  begins (`DeviceTimer.AbandonedBlocksService`).
- `timestamp_ns` is exact for a second of the firmware, sent as milliseconds, if
  and only if it is zero, or is above 10,000,000 and, multiplied by 5^9 without
  its factors of two, below 2^53 (`UnixTime.KeyOfWholeSeconds`). Smaller numbers
  are read as seconds; the first exception above is 4,611,686,019, in 2116.
- A reading taken before 1970, or from the year 10000 on, makes the ingest service
  refuse and acknowledge the whole NDATA it is in (`NdataRows.StorableIff`,
  `NdataRows.NdataBecomesRows`); only the readings of such an NDATA are lost on the
  way (`EndToEnd.NothingIsLost`).
- A message that raises an exception `process` does not catch ends the writer thread. On
  a Sparkplug topic that is exactly a payload of which the first wrong part is a number
  for a name or a float of the wrong size, or a time of 2^64 milliseconds or more that
  gmtime cannot express (`DecodingErrors.CrashesIff`; `MessageRows.NumericNameCrashes` is
  such a message). Then neither it nor any later message is ever acknowledged, whatever is
  restarted (`DeliveryProgress.CrashStopsDelivery`). Nothing else stops delivery for
  good (`DeliveryProgress.DeliverableIffNoCrash`), and the devices send no such
  message (`EndToEnd.DeviceNeverStopsDelivery`).
- The simple firmware can forget a reading the broker never got: a write reports
  failure although its packet left, the PUBACK is taken before the failed call
  returns, and its late event bit passes for the PUBACK of the next message. This
  is the only way. A step of a run is safe, in that no continuation without
  another such step loses a reading, if and only if it is not such a PUBACK, or
  a disconnect is about to be seen (`SimpleLoss.HarmIsExact`); after one, any
  later reading can be lost (`SimpleLoss.HarmLosesReading`).
- The simple firmware's loop can be idle while the helper has a connection, so
  that nothing is sent and every attempt to connect fails until the connection
  ends (`SimpleStranded.StrandedIsStuck`): exactly when a disconnect bit is acted on
  while the helper connects or is connected (`SimpleStranded.MatchedIffNotStranded`).
  Such a bit was set by the callback of an earlier connection, or by the loop itself
  after the helper had refused to disconnect (`SimpleStranded.StaleBitIsOld`);
  `SimpleStranded.LoopIsStranded` and `SimpleStranded.OwnBitStrands` are runs.
- A failure while a retry is waited for changes nothing, as the comment at
  `Original/app/src/mqtt_reconnect.c:42` says (`ReconnectPolicy.DeadlineStays`). A retry
  can still be scheduled with no attempt ordered since the one before: if and only if
  the connection that fails came up while that retry was waited for
  (`ReconnectPolicy.NoAttemptIff`; `ReconnectPolicy.RetryWithoutAttempt` is a trace).
- The comment at `Original/app/src/measurement_service.c:24` and
  `docs/sparkplug.md` say that bdSeq counts connections. It counts the disconnect
  notifications handled (`DeviceBdSeq.BdSeqCountsNotifications`), of which one
  lost connection can cause two (`DeviceBdSeq.OneLossCountsTwice`). The model
  follows the code.

## Model

| member | source | states |
|---|---|---|
| FieldDecoder.ReadVarint | cloud/mqtt/ingest.py:117-128 | the loop reads the base-128 number at the position, at most ten bytes, or reports a truncated or overlong one |
| FieldDecoder.ReadField | cloud/mqtt/ingest.py:131-158 | one field: key, then a body by wire type; lengths and fixed sizes past the end are refused |
| FieldDecoder.DecodeFields | cloud/mqtt/ingest.py:131-158 | the loop yields the fields up to the first error, without reading past the end |
| FieldDecoder.DecodedFieldsTile | cloud/mqtt/ingest.py:131-158 | when decoding succeeds, the fields' byte spans tile the input exactly |
| FieldDecoder.TiledMessageDecodes | cloud/mqtt/ingest.py:131-158 | an input tiled by fields decodes to exactly those fields |
| FieldDecoder.DecodesIffTiled | cloud/mqtt/ingest.py:131-158 | a byte string is accepted with these fields if and only if it is these fields laid end to end |
| FieldDecoder.FieldsRoundTrip | cloud/mqtt/ingest.py:117-158 | decoding any encoded field list returns the list |
| PayloadDecoder.DecodeMetric | cloud/mqtt/ingest.py:161-178 | the loop over a metric's fields computes what the field-by-field specification says, with its error kinds |
| PayloadDecoder.DecodeSparkplugPayload | cloud/mqtt/ingest.py:181-193 | the same for a payload and its metrics |
| PayloadMeaning.MetricIsDecoded | cloud/mqtt/ingest.py:161-178 | a byte string is accepted as a metric, and as this one, if and only if it is fields laid end to end, each with a value fit for its number, and name, time, null flag and value are those of the last field that gives them |
| PayloadMeaning.PayloadIsDecoded | cloud/mqtt/ingest.py:181-193 | the same for a payload: its time and seq are those of the last fields 1 and 3, its metrics those of the fields 2 in order |
| PayloadMeaning.CutMessageIsRejected | cloud/mqtt/ingest.py:117-158 | any message with a decodable payload, cut inside one of its fields, is refused with a ValueError |
| PayloadMeaning.CutMetric | cloud/mqtt/ingest.py:117-178 | so is a metric cut inside one of its fields |
| Utf8.Utf8IffScalars | cloud/mqtt/ingest.py:166-167 | the names that decode are exactly the UTF-8 encodings of sequences of Unicode scalar values |
| Sparkplug.EncodeReadings | Original/app/src/sparkplug.c:78-108 | the metrics loop appends two metrics per reading in order, or stops when they do not fit |
| Sparkplug.EncodeNdata | Original/app/src/sparkplug.c:110-193 | an NDATA is written if and only if it fits; no readings is an error |
| Sparkplug.EncodeNbirth | Original/app/src/sparkplug.c:110-174 | an NBIRTH is written if and only if it fits, and 61 bytes are always enough |
| Sparkplug.NdataSizeBound | Original/app/include/sparkplug.h:24-29 | n readings take at most 14+66n bytes, within the 16+70n that the build reserves |
| Sparkplug.NbirthSizeBound | Simple/app/src/sparkplug.h:23-31 | an NBIRTH takes at most 61 bytes, within the 80 reserved |
| SparkplugWire.NdataOnWire | Original/app/src/sparkplug.c:52-108 | every metric of an NDATA has exactly these fields: name, the milliseconds of its own reading modulo 2^64, datatype 9, is_historical if and only if the message is historical, and the float |
| SparkplugWire.NbirthOnWire | Original/app/src/sparkplug.c:38-91 | the NBIRTH declares bdSeq with datatype 4 and its value, and the two readings as null metrics with datatype 9 |
| MessageBytes.NdataIs | Original/app/src/sparkplug.c:110-193 | every byte of every NDATA |
| MessageBytes.NbirthIs | Original/app/src/sparkplug.c:110-174 | every byte of every NBIRTH |
| TestVectors.ValuesOnWire | cloud/mqtt/tests/test_ingest.py:209-222 | the times and the readings of these messages are written as these bytes |
| CodecRoundTrip.MetricRoundTrip | Original/app/src/sparkplug.c:29-76 | the Python decoder returns every metric the C encoder writes |
| CodecRoundTrip.NdataRoundTrip | Original/app/src/sparkplug.c:78-139 | decoding an encoded NDATA returns its seq, the last timestamp and all readings bit for bit, for any readings |
| CodecRoundTrip.NbirthRoundTrip | Original/app/src/sparkplug.c:78-139 | decoding an encoded NBIRTH returns its timestamp, bdSeq and the declared metrics |
| Floating.CentiExact | Original/app/src/sparkplug.c:94-106 | dividing hundredths below 2^23 by 100 in binary32 and rounding to two decimals returns the hundredths |
| Floating.SingleBitsRoundTrip | cloud/mqtt/ingest.py:161-178 | a binary32 value survives its bit pattern |
| Rounding.RoundIsNearest | cloud/mqtt/ingest.py:42-55 | every rounded quotient has the full precision and is the nearest such value, the even one of two |
| Rounding.HundredthsAreNearest | cloud/mqtt/ingest.py:219 | round(x, 2) is the nearest number of hundredths |
| Rounding.SinglesAreSpaced | cloud/mqtt/ingest.py:174-175 | from zero on, the binary32 values follow each other in the order of their bit patterns in steps of 2^-149 that double with each exponent, and end at the infinities |
| Rounding.DoublesAreSpaced | cloud/mqtt/ingest.py:176-177 | the same for binary64 |
| UnixTime.WholeSecondsNs | cloud/mqtt/ingest.py:42-55 | whole seconds whose nanoseconds have at most 53 significant bits pass exactly |
| UnixTime.KeyOfWholeSeconds | cloud/mqtt/ingest.py:42-55 | for every second before the year 10000, the database key is exact if and only if the second is zero, or exceeds 10,000,000 and has nanoseconds of at most 53 significant bits |
| UnixTime.FitsUntil2116 | cloud/mqtt/ingest.py:54-55 | every second up to 4,611,686,018 has such nanoseconds, and the next one has not |
| UnixTime.LateIsRefused | cloud/mqtt/ingest.py:42-55 | every 64-bit number of milliseconds from the year 10000 on is refused with a ValueError, through all the roundings |
| UnixTime.EarlyIsAccepted | cloud/mqtt/ingest.py:42-55 | every number of milliseconds before the year 10000 is accepted: no rounding carries it into that year |
| MillisecondKeys.MillisecondsAreKept | cloud/mqtt/ingest.py:42-51 | until 2106 the datetime of any number of milliseconds above the threshold shows exactly these milliseconds, through binary64 seconds and rounded microseconds |
| MillisecondKeys.KeyIsNear | cloud/mqtt/ingest.py:54-55 | its database key is less than a microsecond off |
| MillisecondKeys.KeysAreInOrder | cloud/mqtt/ingest.py:54-55 | so different milliseconds have different keys, in the order of time |
| EscapeTag.EscapedTagIsRead | cloud/mqtt/ingest.py:65-66 | a reader that unescapes gets any tag value back and stops at the separator after it |
| EscapeTag.EscapeIsInjective | cloud/mqtt/ingest.py:65-66 | different devices never share a tag text |
| SparkplugRows.BuildSparkplugLines | cloud/mqtt/ingest.py:196-227 | the loops compute the rows or the error of the specification |
| SparkplugRows.CollectReadings | cloud/mqtt/ingest.py:207-222 | the dict after the metrics, or the first error |
| SparkplugRows.SortSorts | cloud/mqtt/ingest.py:223-227 | sorting the keys gives the same keys in increasing order |
| RowMeaning.AcceptedIff | cloud/mqtt/ingest.py:196-227 | exactly these messages are accepted: a well-formed topic and payload, and either an NBIRTH, or an NDATA or DDATA of which every temperature and battery metric has a numeric time and a usable value, there is one, and every time has a key and a finite value |
| RowMeaning.RowsShowLast | cloud/mqtt/ingest.py:207-227 | the rows of any accepted message are one per time of its metrics, in order, and show the last value of each kind for that time, or that of the payload where a metric has none |
| RowMeaning.UntimedIsRefused | cloud/mqtt/ingest.py:216-218 | a measurement without any time gives no rows |
| RowMeaning.SplitIsExact | cloud/mqtt/ingest.py:199 | splitting a topic loses nothing and leaves no slash |
| RowMeaning.StripTrims | cloud/mqtt/ingest.py:92 | the device name loses exactly spaces at both ends |
| NdataRows.NdataBecomesRows | cloud/mqtt/ingest.py:196-227 | an encoded NDATA becomes one row per database key of its readings, with the battery and the rounded binary32 temperature of the last reading of that second, strictly ordered when all are timely; or, if and only if the time of one reading is refused, the whole NDATA is |
| NdataRows.StorableIff | cloud/mqtt/ingest.py:42-55 | any reading's time is accepted if and only if its milliseconds, as the firmware wraps them to 64 bits, come before the year 10000 |
| NdataRows.StorableYears | cloud/mqtt/ingest.py:42-55 | within 580 million years of 1970, where they do not wrap, that is if and only if it lies from 1970 to the year 9999 |
| NdataRows.RowIsExact | cloud/mqtt/ingest.py:221-227 | a timely reading below 83886 degrees has a row that shows it exactly |
| NdataRows.IncreasingReadings | cloud/mqtt/ingest.py:223-227 | with timely, increasing timestamps there is exactly one row per reading, in order |
| NdataRows.NbirthStoresNothing | cloud/mqtt/ingest.py:196-206 | an NBIRTH is no error and gives no rows |
| DeliveryWorker.Worker.Submit | cloud/mqtt/ingest.py:289-297 | a delivery is queued with its connection; a full queue leaves it unacknowledged |
| DeliveryWorker.Worker.ConnectionLost | cloud/mqtt/ingest.py:299-307 | the connection is counted and the queue emptied |
| DeliveryWorker.Worker.Process | cloud/mqtt/ingest.py:313-347 | acknowledges once, only after a good or permanently refused write or when there is nothing to write, only in its own connection; waits double up to 30 s; connections may be lost while it parses, writes or sleeps |
| DeliveryWorker.Worker.Ack | cloud/mqtt/ingest.py:357-362 | only a delivery of the current connection is acknowledged |
| DeliverySafety.AlwaysSafe | cloud/mqtt/ingest.py:273-362 | the invariant of the two threads, the broker and the database over every run |
| DeliverySafety.AcknowledgedIsHandled | cloud/mqtt/ingest.py:313-362 | even if packet identifiers are reused on every connection, the broker discards only messages whose rows were applied, refused for good, or are none |
| DeliverySafety.AckedOnce | cloud/mqtt/ingest.py:357-362 | no delivery is acknowledged twice |
| DeliveryOrder.RedeliveryIsInvisible | cloud/mqtt/migrations/001_enable_dedup.sql:1 | over every run with disconnects, restarts and writes that fail after being applied, once all messages are acknowledged the table equals applying each message once in the broker's order |
| DeliveryOrder.AcknowledgedRowsAreStored | cloud/mqtt/ingest.py:313-347 | at any time every key an acknowledged message wrote is in the table, with its value or a later one's |
| DeliveryOrder.QueueNeverFull | cloud/mqtt/ingest.py:282-297 | a broker that respects Receive Maximum never finds the queue full, and messages leave its session in order |
| DeliveryProgress.CrashStopsDelivery | cloud/mqtt/ingest.py:309-319 | over every run, nothing at or after a message that ends the writer thread is ever discarded by the broker |
| DeliveryProgress.DeliverableIffNoCrash | cloud/mqtt/ingest.py:309-347 | from any reachable state all messages so far can still be acknowledged if and only if none of them ends the writer thread |
| DeliveryProgress.AlwaysPaced | cloud/mqtt/ingest.py:326-347 | over every run the wait after the n-th failed write of a message is min(2^(n-1), 30) seconds |
| DeliveryProgress.AlwaysYields | cloud/mqtt/ingest.py:343-345 | over every run at most one write of a message fails after its connection was counted as lost: then the writer makes way for the redelivery |
| DeliveryProgress.AlwaysWritesRows | cloud/mqtt/ingest.py:321-324 | over every run a message without rows is acknowledged without a write |
| MessageRows.NumericNameCrashes | cloud/mqtt/ingest.py:161-178 | such messages exist: on any Sparkplug topic, a metric with a number for a name |
| DecodingErrors.MetricErrors | cloud/mqtt/ingest.py:161-178 | a metric raises what its first bad field raises: an AttributeError for a number as its name, a ValueError for a name that is not UTF-8, a TypeError for a number where a float belongs, a struct.error for one of the wrong size; else, if its bytes are no fields, a ValueError |
| DecodingErrors.PayloadErrors | cloud/mqtt/ingest.py:181-193 | a payload raises what its first bad metric raises, a TypeError for one that is a number; else, if its bytes are no fields, a ValueError |
| DecodingErrors.CrashesIff | cloud/mqtt/ingest.py:309-319 | a Sparkplug message ends the writer thread if and only if its topic has the four parts and its payload raises an AttributeError or a struct.error, or is decoded and its rows raise an OSError |
| DecodingErrors.LinesRaise | cloud/mqtt/ingest.py:196-227 | the rows of a decoded payload raise ValueErrors only, but for a metric with a time of 2^64 milliseconds or more |
| MessageRows.BodyIsParsed | cloud/mqtt/ingest.py:196-227 | no message of a device ends the writer thread: an NBIRTH has no rows, an NDATA rows for all its readings or a refusal |
| DataTransmission.Buffer.Add | Original/app/src/data_transmission.c:66-99 | a reading goes to the end; a full buffer keeps what it has |
| DataTransmission.Buffer.ShouldFlush | Original/app/src/data_transmission.c:112-136 | the flush rule, whose meaning for any timestamps is `DeviceRequests.NdataIsCalledFor` and `DeviceRequests.NothingOldIsHeldBack` |
| DataTransmission.Buffer.Format | Original/app/src/data_transmission.c:138-170 | the payload is the NDATA of the whole buffer; with the build's payload size a non-empty buffer always formats |
| DataTransmission.Buffer.Commit | Original/app/src/data_transmission.c:179-202 | removes exactly the n oldest readings and advances seq; anything else changes nothing |
| DataTransmission.MoveToFront | Original/app/src/data_transmission.c:191-198 | the in-place move keeps the remaining readings in order |
| DataTransmission.FlushesAtCount | Original/app/src/data_transmission.c:112-136 | with samples every I seconds the buffer is due exactly from sample min(capacity, ceil(B/I)) on |
| DataTransmission.RemainderIsRegular | Original/app/src/data_transmission.c:191-198 | what a commit leaves is again such a buffer |
| MqttClient.MqttClient.PublishPayload | Original/app/src/mqtt_client.c:260-300 | the payload is copied in under a new token if and only if nothing is queued, written or unacknowledged; a refused call changes nothing, and a failed submit uses the token up and lets the next call in |
| MqttClient.MqttClient.PublishWork | Original/app/src/mqtt_client.c:190-235 | first write, if and only if LTE and connection are up in the generation of the call: the copied payload, a fresh identifier, no DUP; the timer or the failure |
| MqttClient.MqttClient.PubackTimeout | Original/app/src/mqtt_client.c:237-256 | the same packet with DUP and twice the wait, if and only if a publish of this generation is active, LTE and connection are up and no other write holds the payload |
| MqttClient.MqttClient.OnPuback | Original/app/src/mqtt_client.c:135-157 | only the active publish of this generation is completed |
| MqttClient.MqttClient.OnDisconnect | Original/app/src/mqtt_client.c:116-127 | afterwards no earlier publish can be acknowledged or resent |
| MqttClient.MqttClient.Disconnect | Original/app/src/mqtt_client.c:340-351 | invalidates the active publish before asking for the disconnect |
| MqttClient.MqttClient.SetLteAvailable | Original/app/src/mqtt_client.c:353-360 | losing LTE disconnects once |
| MqttClient.MqttClient.Connect | Original/app/src/mqtt_client.c:387-403 | one attempt at a time, none while connected or without LTE; a failed submit lets the next attempt in |
| MqttClient.MqttClient.ConnectWork | Original/app/src/mqtt_client.c:302-324 | an attempt notes its generation; a refused one is reported as a failure |
| MqttClient.MqttClient.DisconnectWork | Original/app/src/mqtt_client.c:328-337 | closes only a connection that is up |
| MqttClient.MqttClient.OnConnack | Original/app/src/mqtt_client.c:91-114 | only an attempt of this generation, with LTE, is reported; a connection that came up otherwise is closed |
| ReconnectPolicy.ReconnectState.Handle | Original/app/src/mqtt_reconnect.c:16-61 | the phase machine |
| ReconnectPolicy.ScheduledDelay | Original/app/src/mqtt_reconnect.c:16-61 | over every trace each retry waits min(initial*2^k, max), k counting retries since the connection was up or LTE was lost |
| ReconnectPolicy.TimerArmedIffWaiting | Original/app/src/app_controller.c:18-45 | the timer is armed exactly while a retry is waited for |
| ReconnectPolicy.DeadlineStays | Original/app/src/mqtt_reconnect.c:41-53 | a second failure while a retry is waited for keeps its timer and the next delay |
| ReconnectPolicy.RetriesAlternate | Original/app/src/mqtt_reconnect.c:41-59 | in any stretch of any trace no second retry is scheduled before an attempt is ordered or the connection comes up |
| ReconnectPolicy.RetriesAreFew | Original/app/src/mqtt_reconnect.c:41-59 | so there are never more retries than attempts and connections |
| ReconnectPolicy.NoAttemptIff | Original/app/src/mqtt_reconnect.c:34-53 | a retry is scheduled with no attempt since the one before if and only if the connection that fails came up while that one was waited for |
| ReconnectPolicy.RetryWithoutAttempt | Original/app/src/mqtt_reconnect.c:34-53 | such a trace exists |
| MeasurementService.MeasurementService.PublishBuffer | Original/app/src/measurement_service.c:49-111 | hands over the NBIRTH first, then the NDATA of the whole buffer, byte for byte, and notes the token, of a failed submit too |
| MeasurementService.MeasurementService.PublishWork | Original/app/src/measurement_service.c:123-130 | a refused publish is asked for again |
| MeasurementService.MeasurementService.MeasurementWork | Original/app/src/measurement_service.c:132-172 | stores a reading or counts a dropped slot, and asks for a publish as `DeviceRequests.AskedIffCalledFor` says |
| MeasurementService.MeasurementService.MqttConnected | Original/app/src/measurement_service.c:200-207 | a new session starts with an NBIRTH |
| MeasurementService.MeasurementService.MqttDisconnected | Original/app/src/measurement_service.c:209-218 | nothing buffered is lost |
| MeasurementService.MeasurementService.PublishResult | Original/app/src/measurement_service.c:220-254 | only the completion with the pending token counts; success removes exactly what was sent |
| DeviceRequests.AskedIffCalledFor | Original/app/src/measurement_service.c:113-254 | over every run a publish is asked for if and only if, since a publish was last started or the connection ended, a session began, an NBIRTH was acknowledged, a publish failed or was refused, a reading came while others were pending, or the readings filled the buffer or reached the end of the batch interval |
| DeviceRequests.NdataIsCalledFor | Original/app/src/measurement_service.c:77-172 | over every run an NDATA is handed over only for one of these reasons but the first, and its oldest readings are those that filled the buffer or the interval; it holds the whole buffer, and an NBIRTH the present time and bdSeq |
| DeviceRequests.NothingOldIsHeldBack | Original/app/src/data_transmission.c:112-136 | over every run a connected service that has not asked holds nothing back in single mode, and in batch mode less than a full buffer, with first and last reading less than the batch interval minus a sample apart |
| DeviceRequests.RegularBatches | Original/app/src/data_transmission.c:112-136 | with regular samples it holds back less than min(capacity, ceil(B/I)) readings, and never asks for fewer |
| DeviceRequests.RetryWaits | Original/app/src/measurement_service.c:113-130 | over every run a retry of a failed or refused publish waits a sampling interval whatever is measured in the meantime, and anything else starts at once |
| DeviceRequests.CountersAreExact | Original/app/src/measurement_service.c:132-254 | over every run the dropped samples are counted up to 2^32 - 1, and the pending count is the size of the last NDATA taken, until it is acknowledged |
| AppController.AppController.ApplyReconnect | Original/app/src/app_controller.c:18-39 | carries out the policy's order |
| AppController.AppController.HandleEvent | Original/app/src/app_controller.c:70-135 | what one event does to client, service, policy, timer and queue |
| AppController.AppController.HandleEvents | Original/app/src/app_controller.c:137-150 | the loop handles every event in order, with those it causes and whatever the submits return, and ends |
| AppController.EventEffects | Original/app/src/app_controller.c:52-135 | which events make every publish of the generation void and close the connection, which end the session with nothing buffered lost, which start one, and that no others do |
| AppController.HandledWeighsLess | Original/app/src/app_controller.c:137-150 | why draining the queue ends although handling an event may post one |
| Sequential.EventAlone | Original/app/src/app_controller.c:52-135 | the interleaved steps of one event, run undisturbed, do what HandleEvent states |
| Sequential.PublishAlone | Original/app/src/mqtt_client.c:260-300 | the interleaved steps of one publish call, run undisturbed, do what PublishPayload states |
| Sequential.JobAlone | Original/app/src/mqtt_client.c:190-235 | the same for the publish job |
| Sequential.TimeoutAlone | Original/app/src/mqtt_client.c:237-256 | the same for the timeout handler |
| Sequential.OpenAlone | Original/app/src/mqtt_client.c:302-324 | the same for the connect handler |
| Sequential.CloseAlone | Original/app/src/mqtt_client.c:328-337 | the same for the disconnect handler |
| Sequential.ConnackAlone | Original/app/src/mqtt_client.c:91-114 | the same for the CONNACK callback |
| PublishPacing.WaitDoubles | Original/app/src/mqtt_client.c:237-256 | doubling and capping gives min(T*2^k, max) |
| PublishSound.SoundByCaller | Original/app/src/mqtt_client.c:260-300 | a publish call keeps the protocol's invariant at every operation |
| PublishSound.SoundBySender | Original/app/src/mqtt_client.c:190-235 | so do the first write and its completion |
| PublishSound.SoundByRetry | Original/app/src/mqtt_client.c:237-256 | so does the retransmission, between reads that are not atomic together |
| PublishSound.SoundByPuback | Original/app/src/mqtt_client.c:135-157 | so does a PUBACK, even before the write returns |
| PublishSound.SoundByOutside | Original/app/src/mqtt_client.c:116-127 | so do disconnects, LTE changes and everything else |
| DeviceSound.AlwaysSound | Original/app/src/mqtt_client.c:43-71 | the protocol's invariant holds in every reachable state of the firmware |
| DeviceSound.PayloadOwnership | Original/app/src/mqtt_client.c:43-49 | no step changes payload or topic while a write reads them, a job waits or a publish is active |
| DeviceSound.CompletionCorrectness | Original/app/src/mqtt_client.c:135-157 | each token is completed at most once, and with success only for a packet with that token's message that reached the broker |
| DeviceSound.PubackIsOwn | Original/app/src/mqtt_client.c:135-157 | a PUBACK of this connection that changes anything is for the active token's packet; late and duplicate ones change nothing |
| DeviceSound.PubackTakenIff | Original/app/src/mqtt_client.c:135-157 | whatever its connection, a PUBACK is taken if and only if its identifier is the one the active token was given, the generation is its own and LTE is up |
| DeviceCompletions.EachDecisionIsToldOnce | Original/app/src/mqtt_client.c:135-188 | every decided completion is put into the event queue at most once, and has been or is about to be |
| DeviceSound.ResendsAreIdentical | Original/app/src/mqtt_client.c:168-256 | every resend has the payload, topic and identifier of the first packet, and DUP |
| DeviceSound.WaitLaw | Original/app/src/mqtt_client.c:190-256 | after the n-th write the timer runs for min(T*2^(n-1), max) |
| DeviceOutbox.AlwaysOutbox | Original/app/src/measurement_service.c:77-254 | the invariant of service, buffer and event queue over every run |
| DeviceOutbox.Conservation | Original/app/src/measurement_service.c:220-254 | accepted readings = those of completed, delivered NDATA followed by the buffer, in order |
| DeviceOutbox.OnlyItsAckRemoves | Original/app/src/measurement_service.c:220-254 | only the success of the publish in flight removes readings, exactly its own; any other step keeps or extends the buffer |
| DeviceOutbox.SessionOrder | Original/app/src/measurement_service.c:77-111 | no NDATA is handed over before the session's NBIRTH is acknowledged; acknowledged messages carry seq 0, 1, ..., 255, 0, ... and a failed NDATA's seq is used again |
| DeviceBirthFirst.NbirthComesFirst | Original/app/src/mqtt_client.c:168-300 | over every run that starts the older of a queued publish and a queued connect item first, no NDATA packet, first or resent, is written while the helper has a connection unless an NBIRTH was acknowledged in that very connection |
| DeviceOutbox.OffersFit | Original/app/src/data_transmission.c:20-26 | everything offered fits the payload buffer |
| DevicePayloads.AlwaysGoodBodies | Original/app/src/data_transmission.c:138-170 | every message ever handed over has the topic of its payload, and an NDATA holds a contiguous stretch of the accepted readings |
| DevicePayloads.AlwaysTimed | Original/app/src/measurement_service.c:49-75 | every NBIRTH ever handed over carries the time at which the handler that made it was started |
| DeviceWake.NoLostWakeUp | Original/app/src/measurement_service.c:77-111 | a publish in flight is queued or active in the current generation, or its completion, a disconnect or an LTE loss is on its way |
| DeviceTimer.TimerLostExactly | Original/app/src/mqtt_client.c:237-250 | an active publish loses its timer exactly when the timeout fires while a publish call holds publish_pending |
| DeviceTimer.RetransmissionGoesOn | Original/app/src/mqtt_client.c:190-256 | while the publish the service waits for is active and LTE is up, its timer runs or the sender is at work on it, in every reachable state |
| DeviceTimer.AttendedIffNotAbandoned | Original/app/src/mqtt_client.c:237-256 | over every run, any active publish with LTE up is timed, written or retried if and only if it was not given up since it became active |
| DeviceTimer.AbandonedBlocksService | Original/app/src/measurement_service.c:77-130 | after that the service waits for nothing and hands over nothing; it ends exactly with the PUBACK or a new generation |
| DeviceAbandoned.PublishIsAbandoned | Original/app/src/mqtt_client.c:237-285 | a run from power-up to such a state, with link, policy and service connected and all threads at rest |
| DeviceBdSeq.BdSeqCountsNotifications | Original/app/src/measurement_service.c:209-218 | over every run bdSeq is the number of disconnect notifications handled, modulo 256 |
| DeviceBdSeq.OneLossCountsTwice | Original/app/src/app_controller.c:102-131 | a run in which one lost connection advances it twice |
| DeviceReconnect.AlwaysFollows | Original/app/src/app_controller.c:18-57 | over every run, policy and timer are those after exactly what the controller has told the policy in that run |
| DeviceReconnect.TimerIffWaiting | Original/app/src/app_controller.c:18-45 | in every reachable state the timer is armed exactly while waiting |
| DeviceReconnect.NextDelayDoubles | Original/app/src/mqtt_reconnect.c:41-53 | over every run, after k retries scheduled since the connection was up or LTE was lost the next one waits min(initial*2^k, max), and an armed timer runs for min(initial*2^(k-1), max) |
| DeviceReconnect.DeadlineKept | Original/app/src/mqtt_reconnect.c:41-53 | over every run a retry that is waited for keeps timer and next delay until it fires, the connection comes up or LTE is lost |
| DeviceReconnect.RetriesAreFew | Original/app/src/mqtt_reconnect.c:41-59 | over every run no more retries are scheduled than attempts were ordered and connections came up |
| DeviceAttempts.ToldIffStanding | Original/app/src/mqtt_client.c:91-114 | over every run, the success or failure of a connection attempt is reported exactly when no disconnect, LTE loss or end of a connection has made it void since it began |
| DeviceProgress.NeverStuck | Original/app/src/app_controller.c:18-118 | while connecting, there is a connect order or work item, an attempt of this generation, an MQTT event on its way, or a connection being closed |
| DeviceExample.ReadingIsDelivered | Original/app/src/measurement_service.c:77-254 | the interleaved machine gets there: a run that connects, sends the NBIRTH, and takes, delivers and forgets a reading |
| DeviceProgress.ConnectedIsReal | Original/app/src/app_controller.c:102-131 | a policy that believes in the connection has it, or its end is being handled or on its way |
| Outbox.RunIsOrderly | Original/app/src/measurement_service.c:220-254 | over every run no more is delivered than accepted, sessions are numbered without gap, and a session delivered exactly the latest readings |
| Outbox.NothingComesBack | Original/app/src/data_transmission.c:179-202 | accepted readings never change and delivered ones never come back |
| DeviceRefines.RunRefines | Original/app/src/measurement_service.c:132-254 | every run of the full firmware is a run of the outbox |
| SimpleBatch.Batch.Add | Simple/app/src/batch.c:19-27 | a full buffer overwrites nothing |
| SimpleBatch.Batch.Remove | Simple/app/src/batch.c:44-51 | exactly the oldest readings go, at most all |
| SimpleApp.MqttClient.OnPuback | Simple/app/src/mqtt_client.c:53-61 | only a successful PUBACK of the pending message is reported, and once |
| SimpleApp.MqttClient.Publish | Simple/app/src/mqtt_client.c:127-152 | one message at a time; a failed write clears the identifier |
| SimpleApp.Application.CollectMeasurements | Simple/app/src/main.c:123-142 | every queued reading is buffered in order or counted |
| SimpleApp.Application.HandlePuback | Simple/app/src/main.c:144-163 | what an event bit does |
| SimpleApp.Application.UpdateConnection | Simple/app/src/main.c:194-218 | the connection state machine |
| SimpleApp.Application.PublishNext | Simple/app/src/main.c:236-276 | NBIRTH first, then NDATA of the whole buffer, byte for byte; encoding always succeeds |
| SimpleApp.Application.Round | Simple/app/src/main.c:335-348 | one round of the loop |
| SimpleSequential.RoundAlone | Simple/app/src/main.c:335-348 | one round of the machine's thread, run undisturbed, has the effect on loop state, event bits, pending identifier, link and packets that the contract of Round states |
| SimpleDevice.AlwaysSound | Simple/app/src/main.c:144-348 | the invariant of loop, callbacks and pending identifier over every run without a harmful PUBACK |
| SimpleDevice.WaitsForItsMessage | Simple/app/src/main.c:236-276 | in such a run, while a PUBACK is awaited the last packet is the NDATA of the first sent_count readings, or the NBIRTH |
| SimpleDevice.Conservation | Simple/app/src/main.c:144-163 | in such a run accepted readings = those of acknowledged, delivered NDATA followed by the buffer |
| SimpleDevice.OnlyItsPubackRemoves | Simple/app/src/main.c:144-163 | in such a run late, coalesced and duplicate bits remove nothing |
| SimpleDevice.RunRefines | Simple/app/src/main.c:335-348 | every such run of the simple firmware is a run of the same outbox |
| SimplePayloads.AlwaysGoodPackets | Simple/app/src/main.c:236-276 | in such a run every NDATA written holds a contiguous stretch of the accepted readings |
| SimpleBirthFirst.NbirthComesFirst | Simple/app/src/main.c:144-276 | over every run, harmless or not, every NDATA packet is preceded by an NBIRTH packet of the very same connection that the loop has taken as acknowledged |
| SimpleApp.Application.NextWakeup | Simple/app/src/main.c:297-306 | the time until which the loop sleeps |
| SimpleTimes.DeadlineIsTwoMinutes | Simple/app/src/main.c:220-234 | over every run, harmless or not, an awaited PUBACK has until two minutes after the publish call returned |
| SimpleTimes.GivenUpIffOverdue | Simple/app/src/main.c:179-192 | over every run a connection is given up for a missing PUBACK if and only if at least two minutes have passed since then |
| SimpleTimes.ConnectsIffDue | Simple/app/src/main.c:166-218 | over every run the loop asks for a connection if and only if it has none, the network is there, and min(5*2^k, 60) seconds have passed since the last of k+1 reconnects was scheduled |
| SimpleTimes.SleepsUntilSomethingIsDue | Simple/app/src/main.c:297-306 | over every run, before the wakeup time a round without events does nothing about the connection, and from then on it does |
| SimpleTimes.CountersAreExact | Simple/app/src/main.c:123-206 | over every run bdSeq is the number of connections that ended modulo 256, and the skipped readings are counted modulo 2^32 |
| SimpleTimes.PublishesIffReady | Simple/app/src/main.c:236-276 | over every run the loop publishes if and only if it is connected, awaits nothing, and has no acknowledged NBIRTH or a full batch |
| SimpleTimes.AlwaysReady | Simple/app/src/main.c:236-276 | over every run each NDATA written holds at least a batch, and each NBIRTH the time of a round |
| SimpleLoss.HarmIsExact | Simple/app/src/mqtt_client.c:141-151 | a step keeps every reading, in all continuations without another harmful PUBACK, if and only if it is not a harmful PUBACK |
| SimpleLoss.HarmLosesReading | Simple/app/src/mqtt_client.c:141-151 | after every harmful PUBACK there is a continuation that removes any given reading not yet taken, though no packet with it reached the broker |
| SimpleCounterexample.LyingWriteLosesReading | Simple/app/src/mqtt_client.c:141-151 | a run from power-up that removes a reading that never reached the broker |
| SimpleStranded.MatchedIffNotStranded | Simple/app/src/main.c:194-218 | over every run, a helper with a connection has a loop that is not idle if and only if no disconnect bit was acted on since it began to connect |
| SimpleStranded.StrandedIsStuck | Simple/app/src/main.c:194-276 | otherwise nothing is written and no attempt to connect succeeds, until the connection ends |
| SimpleStranded.StaleBitIsOld | Simple/app/src/main.c:185-192 | over every run, the bit that strands the loop was set by the callback of an earlier connection, or by the loop itself after a refused disconnect |
| SimpleStranded.LoopIsStranded | Simple/app/src/main.c:185-218 | a run from power-up to such a state, by the bit of the connection before |
| SimpleStranded.OwnBitStrands | Simple/app/src/main.c:185-218 | a run to it in the very first connection, by the loop's own bit |
| EndToEnd.PartsRun | cloud/mqtt/ingest.py:256-270 | in the composed system each part runs as it does alone |
| EndToEnd.NothingIsLost | Original/app/src/measurement_service.c:220-254 | at any time each accepted reading is in the device buffer, or in a message the broker holds, or a message with it that writes its key was acknowledged and the table has the key with that message's row or a later one's; or an NDATA with it was refused for the time of one of its readings |
| EndToEnd.EveryReadingIsStored | cloud/mqtt/ingest.py:196-227 | with timely, increasing sampling times and no other publisher for the device, the row is that of the reading, exactly so below 83886 degrees |
| EndToEnd.DeviceNeverStopsDelivery | cloud/mqtt/ingest.py:309-319 | while no message of another publisher ends the writer thread, all messages can still be acknowledged |
| SimpleEndToEnd.NothingIsLost | Simple/app/src/main.c:144-163 | the same for every run of the simple firmware without a harmful PUBACK |
| SimpleEndToEnd.EveryReadingIsStored | cloud/mqtt/ingest.py:196-227 | and in such a run its readings have their own, exact rows |
| SimpleEndToEnd.DeviceNeverStopsDelivery | cloud/mqtt/ingest.py:309-319 | and in such a run it never stops the ingest service either |

## Left out

- The 32-bit wrap-around of tokens and generations; both are unbounded here.
- Liveness under fairness: the results say that something is always pending, not that it is scheduled.
- When a work item that is scheduled runs: a requested publish has its delay (`DeviceRequests.RetryWaits`), but the machine may start it at any time.
- The order of work items within one work queue: the machine may start any submitted item, which includes the real order. Only `DeviceBirthFirst.NbirthComesFirst` asks for it, between the publish and the connect item.
- Session expiry, broker queue limits, power loss and QuestDB, Mosquitto and HTTP internals.
- The JSON path of the ingest service (`build_line`, `build_lines`, string timestamps) and Python's `float()` of bytes: parameters of `MessageRows.Service`.
- The text of a line apart from its tag; rows are values here. `finite_number` appears as the cells it keeps or drops.
- nanopb and paho internals, TLS, credentials, the modem, sensors, LEDs, logging and `drops_since_log`.
- MqttClient.MqttClient.Disconnect: takes for granted that `k_work_submit_to_queue` succeeds, because the work queue runs and is never drained.
- The visualisation, deployment and measurement scripts.
