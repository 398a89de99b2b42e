# ACS712 current reader and sensor dashboard — Dafny model

The repository has two small programs. `acs712_reader.cpp` samples an ACS712
current sensor through the Linux IIO sysfs interface: an `ACS712` object fixes,
once, the path of the raw-sample file of its ADC channel
(`/sys/bus/iio/devices/iio:device0/in_voltage<channel>_raw`), and each
`readCurrent` opens that file afresh and reads one integer from it.
`dashboard.py` is a Qt window whose timer calls `update_plot`, which keeps the
latest 50 readings in a list and plots them, padded with zeros, against a fixed
x axis `0..49`.

This project models:

- `decimal.dfy` (module `Decimal`): `std::to_string` on integers (`FromInt`),
  with an independent parser (`ParseInt`) and proofs that each inverts the other
  on canonical decimal strings, hence that the rendering is injective.
- `acs712_reader.dfy` (module `Acs712Reader`): the path built by the constructor
  (`RawPath`), its inverse `ChannelOf`, the class `ACS712` with the fields the
  constructor sets and never reassigns (declared `const`), and the acquisition
  step of `readCurrent` (`ReadRawSample`, through `ReadIntFromFile`) over a
  snapshot of the openable files passed in as a parameter.
- `dashboard.dfy` (module `Dashboard`): the class `SensorDashboard` with the
  fields `data`, `x` and the series last handed to the curve, and `UpdatePlot`,
  which mutates them as `update_plot` does. A ghost field records every reading
  taken; the class invariant says `data` is always the latest
  `min(n, 50)` of them, in arrival order, and the curve is `data` padded to 50.
- `wrappers.dfy` (module `Wrappers`): `Option` and `Result`.

In `dashboard.py` the constructor is spelled `_init_` and the entry guard
`_name_`, so as written neither runs; the model takes the state the
constructor sets up at dashboard.py:50-52 (an empty history, the axis
`list(range(50))`, a first curve of 50 zeros) as the initial state.

`readIntFromFile` throws only when the file cannot be opened
(acs712_reader.cpp:68, 72-73); `file >> value` never throws. When the file
holds a character that cannot start an integer, the failed extraction stores 0
and 0 is returned; when it holds nothing but whitespace, `value` is never
written and the returned value is indeterminate, which the model represents as
an arbitrary `Int32` carried by the file snapshot.

## Model

| member | source | states |
|---|---|---|
| Decimal.NatToDecimal | acs712_reader.cpp:34 | the decimal digits of a natural number form a non-empty digit string with no leading zero, beginning with '0' exactly for zero |
| Decimal.FromInt | acs712_reader.cpp:34 | `to_string` yields a canonical decimal string, beginning with '-' exactly when the integer is negative |
| Decimal.ParseNatOfNatToDecimal | acs712_reader.cpp:34 | reading the digits of n back gives n |
| Decimal.ParseIntOfFromInt | acs712_reader.cpp:34 | reading back the rendering of any integer gives that integer |
| Decimal.FromIntInjective | acs712_reader.cpp:34 | two integers with the same rendering are equal |
| Decimal.NatToDecimalOfParseNat | acs712_reader.cpp:34 | every canonical digit string is the rendering of its value |
| Decimal.FromIntOfParseInt | acs712_reader.cpp:34 | every canonical signed decimal string is the rendering of its value, so the renderings are exactly the canonical strings |
| Acs712Reader.RawPath | acs712_reader.cpp:33-34 | the path starts with the base directory and "in_voltage", ends with "_raw", and holds the channel's decimal rendering in between |
| Acs712Reader.ChannelOfRawPath | acs712_reader.cpp:34 | the channel can be recovered from the path built for it |
| Acs712Reader.RawPathOfChannelOf | acs712_reader.cpp:34 | any string that names a channel this way is exactly the path built for that channel |
| Acs712Reader.RawPathInjective | acs712_reader.cpp:34 | distinct channels give distinct paths |
| Acs712Reader.DefaultRawPath | acs712_reader.cpp:92 | channel 13 reads `/sys/bus/iio/devices/iio:device0/in_voltage13_raw` |
| Acs712Reader.OpenError | acs712_reader.cpp:73 | the error message is "Erro ao abrir " followed by the path |
| Acs712Reader.ReadIntFromFile | acs712_reader.cpp:70-78 | fails exactly when the file cannot be opened, with the open-error message; otherwise yields the integer token, 0 when extraction is rejected, and the uninitialised variable's indeterminate value when the file holds no token |
| Acs712Reader.ACS712.constructor | acs712_reader.cpp:31-36 | channel and sensitivity are stored unchanged, scale is 1.0, the base path is the fixed IIO directory and the raw path is the one built from the channel |
| Acs712Reader.ACS712.ReadRawSample | acs712_reader.cpp:43-44 | each read goes to the stored path; it fails exactly when this channel's file cannot be opened, and the error names this channel's path |
| Acs712Reader.DefaultSensor | acs712_reader.cpp:92 | the entry point's sensor reads channel 13 at 185 mV/A from `.../in_voltage13_raw` |
| Dashboard.Range | dashboard.py:51 | the x axis has n entries and entry i is i |
| Dashboard.Zeros | dashboard.py:79 | `[0]*n` has max(n, 0) entries, all zero |
| Dashboard.Pushed | dashboard.py:76-78 | after a tick the newest reading is last; below capacity nothing is dropped; at capacity the oldest is dropped and the rest keep their order; the history never grows past 50 |
| Dashboard.Padded | dashboard.py:79 | the plotted series has 50 entries for any history of at most 50, begins with the history, and is zero after it |
| Dashboard.RecentPushed | dashboard.py:76-78 | one tick applied to the latest 50 readings gives the latest 50 readings of the extended stream |
| Dashboard.History | dashboard.py:76-78 | feeding readings one tick at a time never leaves more than 50 in the history |
| Dashboard.HistoryIsRecent | dashboard.py:76-78 | starting empty, the history is exactly the latest min(n, 50) readings in arrival order |
| Dashboard.SensorDashboard.constructor | dashboard.py:50-52 | the history starts empty, the x axis is 0..49 and the first curve is 50 zeros |
| Dashboard.SensorDashboard.UpdatePlot | dashboard.py:73-79 | the history becomes the pushed history, the invariant (latest readings, at most 50) is kept, and the curve is the padded history, as long as the x axis |

## Left out

- The current conversion in `readCurrent` (acs712_reader.cpp:47-53): single-precision float arithmetic is not modelled; `ReadRawSample` stops at the raw sample. `sensitivity` and `scale` are C++ `float`s modelled as `real` values that are only stored.
- Acs712Reader.ReadIntFromFile: the text of the file and how `operator>>` skips whitespace, reads a sign and clamps an out-of-range value are abstracted into the file snapshot, which gives for each openable file the integer extracted, a rejected extraction, or end of file with the indeterminate value left in the variable; the snapshot is a parameter because the file system is outside the model.
- The reporting loop of `main` (acs712_reader.cpp:89-107): console output, the 100 ms sleep and the exception-to-exit-status wiring are I/O and timing.
- `read_sensor` (dashboard.py:60-71): serial-port reading, decoding and float parsing are foreign library calls; `UpdatePlot` takes the reading as a parameter.
- The label text set at dashboard.py:75, and all Qt, pyqtgraph and serial-port setup (dashboard.py:1-48, 53-58, 82-86): user interface and device opening.
