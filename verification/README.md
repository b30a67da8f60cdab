# GrovePi host driver — a Dafny model

This project models the core of the GrovePi host-side driver (`Piezo/grovepi.py`). A Raspberry Pi
talks over I2C to the GrovePi microcontroller at address 0x04. The model has three parts.

- **Transport adapter** (`transport.dfy`, module `Transport`). It holds the three retry
  helpers `write_i2c_block`, `read_i2c_byte` and `read_i2c_block`:
  - Each tries its platform primitive at most `retries` = 10 times.
  - Each returns what the first successful attempt returned.
  - Each degrades to the integer -1 when every attempt raised `IOError`.

  The platform bus is a class `Bus`. Its three primitives answer from scripts of per-attempt
  outcomes (`IOError` or `Ok(value)`), and every attempted call is appended to `trace`. The
  helpers are `while` loops. They are proved against the recursive specification function
  `Retry`, whose contract pins the run down completely.
- **Command codec** (`grovepi.dfy`, module `GrovePi`). It holds `digitalRead`, `digitalWrite`,
  `pinMode`, `analogRead`, `analogWrite` and `version`:
  - Each sends at most one 4-byte frame `[opcode, a, b, c]` through the write helper; `pinMode`
    sends none for a mode other than "OUTPUT" or "INPUT". The helper attempts the frame 1 to 10
    times. The opcodes are 1, 2, 5, 3, 4 and 8, and unused slots are 0.
  - The read operations then read the reply through the helpers.
  - The frame layout is `Encode`, with an inverse `Decode`.
  - The reply decoding is `DecodeAnalog` (`number[1] * 256 + number[2]`) and `FormatVersion`
    (`"%s.%s.%s"`).

  `pyformat.dfy` (module `PyFormat`) models Python's decimal rendering of non-negative
  integers. It proves that the dotted version string parses back to its three bytes.
- **Noise filter** (`noise_filter.dfy`, module `NoiseFilter`). This is
  `statisticalNoiseReduction` over real samples:
  - empty input gives `[]`;
  - a zero standard deviation returns the input unchanged;
  - otherwise the two list comprehensions keep the samples strictly inside
    `(mean - k*sigma, mean + k*sigma)`, in order.

  Dafny has no square root, so the population standard deviation `sigma` is a parameter. The
  precondition requires it to be the non-negative root of the population variance, and 0 when
  the variance is 0.

`wrappers.dfy` holds the shared `Option` datatype.

## Model

| member | source | states |
|---|---|---|
| Transport.Retry | Piezo/grovepi.py:164-177 | The retry discipline. It makes at most `budget` attempts, and at least one when `budget > 0`. A returned value is the value of the last attempt made, and every earlier attempt raised IOError. The sentinel means all `budget` attempts raised IOError. |
| Transport.FailThenSucceed | Piezo/grovepi.py:171-174 | If the first n < budget attempts raise IOError and attempt n succeeds with v, the loop returns v after exactly n + 1 attempts. |
| Transport.AllFail | Piezo/grovepi.py:171-177 | The helper returns -1 if and only if every one of the `budget` attempts raised IOError, and in that case it used the whole budget. |
| Transport.ByteOrMinusOne | Piezo/grovepi.py:180-187 | The integer the byte helper returns lies in -1..255. It is the byte read when an attempt succeeded, and -1 exactly when all attempts failed. |
| Transport.Bus.constructor | Piezo/grovepi.py:59-69 | A fresh bus holds the given per-primitive scripts and an empty trace. |
| Transport.Bus.WriteBlockOnce | Piezo/grovepi.py:173 | One attempt: the next scripted outcome (IOError once the script is exhausted). It consumes that outcome, records the call, and leaves the other scripts alone. |
| Transport.Bus.ReadByteOnce | Piezo/grovepi.py:183 | The same, for the single-byte read. |
| Transport.Bus.ReadBlockOnce | Piezo/grovepi.py:194 | The same, for the block read with register 1. |
| Transport.WriteI2cBlock | Piezo/grovepi.py:170-177 | The loop returns exactly `Retry(script, 10).reply`: None on the first success, or -1. It consumes exactly the attempts it made, writes the same block to register 1 once per attempt, and touches no other script. |
| Transport.ReadI2cByte | Piezo/grovepi.py:180-187 | The loop returns the first successfully read byte, or -1, as `Retry` states. It makes one read call per attempt and touches no other script. |
| Transport.ReadI2cBlock | Piezo/grovepi.py:191-198 | The loop returns the first successfully read block, or -1, as `Retry` states. It makes one block read of register 1 per attempt and touches no other script. |
| GrovePi.Encode | Piezo/grovepi.py:74-88 | Every frame has 4 bytes. The opcode is first, then the pin (0 for version), then the value, or the mode byte (1 for output, 0 for input), or 0 for the read and version commands, then 0. |
| GrovePi.DecodeEncode | Piezo/grovepi.py:162-163 | Decoding an encoded frame gives back its command, so no two commands share a frame. |
| GrovePi.EncodeDecode | Piezo/grovepi.py:162-163 | A frame that decodes is exactly the encoding of its command, so its unused slots are 0. |
| GrovePi.PinModeCommand | Piezo/grovepi.py:214-219 | A command is sent if and only if the mode is "OUTPUT" or "INPUT". "OUTPUT" sends [5, pin, 1, 0] and "INPUT" sends [5, pin, 0, 0]. |
| GrovePi.DecodeAnalog | Piezo/grovepi.py:227 | Indexing the -1 sentinel raises TypeError, and only then. A block shorter than 3 bytes raises IndexError, and only then. Any returned reading lies in 0..65535. |
| GrovePi.AnalogRoundTrip | Piezo/grovepi.py:227 | A 16-bit value sent high byte first in slots 1 and 2 decodes back to itself, whatever the lead byte and trailing bytes are. |
| GrovePi.AnalogInjective | Piezo/grovepi.py:227 | Two blocks that decode to the same reading agree on byte 1 (high) and byte 2 (low). |
| GrovePi.FormatVersion | Piezo/grovepi.py:241 | TypeError exactly on -1. IndexError exactly on a block shorter than 4 bytes. Otherwise the string is three canonical numerals joined by dots that read back as bytes 1, 2 and 3 of the block. |
| GrovePi.VersionExample | Piezo/grovepi.py:241 | The block [_, 1, 2, 3] formats as "1.2.3". |
| GrovePi.DigitalRead | Piezo/grovepi.py:201-205 | Sends [1, pin, 0, 0] through the write helper. It then returns the byte helper's result unchanged, -1 included. Each script loses exactly the attempts made on it, and the trace grows by the write attempts followed by the read attempts. |
| GrovePi.DigitalWrite | Piezo/grovepi.py:208-210 | Sends [2, pin, value, 0] and returns 1 whatever the bus did. No read is made. |
| GrovePi.PinMode | Piezo/grovepi.py:214-219 | Returns 1 always. For "OUTPUT" or "INPUT" it sends that mode's frame. For any other string it leaves the bus untouched. |
| GrovePi.AnalogRead | Piezo/grovepi.py:223-227 | Sends [3, pin, 0, 0], then makes one byte read whose result is discarded. It returns `DecodeAnalog` of the block helper's result. The trace is write attempts, then byte-read attempts, then block-read attempts. |
| GrovePi.AnalogWrite | Piezo/grovepi.py:231-233 | Sends [4, pin, value, 0] and returns 1 whatever the bus did. |
| GrovePi.Version | Piezo/grovepi.py:236-241 | Sends [8, 0, 0, 0], makes one byte read that is discarded, and returns `FormatVersion` of the block helper's result. |
| GrovePi.WriteTraceShape | Piezo/grovepi.py:170-177 | One write-helper call puts between 1 and 10 attempts on the bus, all with the same address, register 1 and frame. |
| PyFormat.Decimal | Piezo/grovepi.py:241 | `%s` of a non-negative integer is a numeral with no leading zero, and it parses back to the integer. |
| PyFormat.DottedTripleRoundTrip | Piezo/grovepi.py:241 | Splitting `"%s.%s.%s" % (a, b, c)` at the dots and parsing gives back (a, b, c). |
| PyFormat.CanonicalNumeralUnique | Piezo/grovepi.py:241 | A numeral with no leading zero is exactly `%s` of the number it denotes. |
| PyFormat.JoinSplit | Piezo/grovepi.py:241 | Joining the pieces of a split with the separator gives the string back. |
| PyFormat.DottedTripleUnique | Piezo/grovepi.py:241 | A string that reads back as (a, b, c) is exactly `"%s.%s.%s" % (a, b, c)`, so `FormatVersion`'s read-back contract fixes the version string. |
| NoiseFilter.StatisticalNoiseReduction | Piezo/grovepi.py:248-261 | Empty input gives []. A zero standard deviation returns the input unchanged. Otherwise the result is the one-pass filter keeping the samples strictly between mean - k*sigma and mean + k*sigma. |
| NoiseFilter.TwoPassesAreOne | Piezo/grovepi.py:258-259 | The "above the lower bound" comprehension followed by the "below the upper bound" comprehension equals one filter on both conditions. |
| NoiseFilter.KeptIndices | Piezo/grovepi.py:258-261 | The positions the filter keeps are in range and strictly increasing. |
| NoiseFilter.KeptIndicesExact | Piezo/grovepi.py:258-261 | A position is kept if and only if its sample lies strictly inside the band. |
| NoiseFilter.KeptIndicesSelect | Piezo/grovepi.py:258-261 | The filter's output is the input read at the kept positions. |
| NoiseFilter.KeepBetweenIsSubsequence | Piezo/grovepi.py:258-261 | The output is an order-preserving subsequence of the input, made of exactly the in-band samples. |
| NoiseFilter.KeepBetweenCounts | Piezo/grovepi.py:258-261 | Each value occurs in the output as often as in the input if it is in the band, and never otherwise. |
| NoiseFilter.KeepBetweenMembers | Piezo/grovepi.py:258-261 | A value is in the output if and only if it is an input sample strictly inside the band. |
| NoiseFilter.NoiseReductionMembers | Piezo/grovepi.py:248-261 | A value is returned if and only if it is a sample and either sigma is 0 or it lies strictly less than k*sigma from the mean. |
| NoiseFilter.IdenticalSamplesUnchanged | Piezo/grovepi.py:252-256 | A run of identical samples has standard deviation 0 and comes back unchanged, whatever `k`. |
| NoiseFilter.SingleSampleUnchanged | Piezo/grovepi.py:252-256 | A single sample comes back unchanged, whatever `k`. |
| NoiseFilter.VarianceNonNegative | Piezo/grovepi.py:253 | The population variance is never negative, so the standard deviation the filter needs always exists. |
| NoiseFilter.OutlierRemoved | Piezo/grovepi.py:248-261 | [10, 10, 10, 10, 1000] has mean 208 and standard deviation 396. With k = 1 the 1000 is dropped and the four 10s are kept. |

## Left out

- Platform selection and bus construction (`Piezo/grovepi.py:1-69`): the bus is a parameter, modelled by `Transport.Bus` with scripted outcomes. The real smbus primitives are not modelled beyond "returns a value or raises IOError".
- `time.sleep(.1)` in `version` and the `debug` prints inside the retry loops: they have no effect on results.
- The command constants other than opcodes 1, 2, 3, 4, 5 and 8 (ultrasonic, accelerometer, RTC, DHT, LED bar, 4-digit display, encoder, flow sensor, and so on): no function of this file sends them.
- Non-I/O faults raised by the platform primitives for malformed arguments: `pin` and `value` are typed as bytes (0..255), so out-of-range arguments are not modelled.
- An exhausted outcome script answers IOError, so a script describes at least as many attempts as the helpers can make.
- Floating point: samples, mean and standard deviation are exact reals. The square root inside `numpy.std` is replaced by the parameter `sigma` and the precondition that `sigma*sigma` is the population variance. The `sigma == 0` test is exact equality, as in the source.
- The filter's default `std_factor_threshold = 2` is not a default here: `k` is always passed explicitly.
- NoiseFilter.StatisticalNoiseReduction: "a zero standard deviation only when all samples are equal" is not proved. Its proof needs nonlinear reasoning from `sigma*sigma == 0` that the solver does not complete. The other direction (identical samples, a single sample) is proved. For that, the precondition `IsStandardDeviation` states explicitly that a zero variance has the root 0, which the real square root satisfies.
- A second application of the filter with the same `k` is not claimed to be a no-op. It is not true in general, because the mean and standard deviation of the kept samples differ from the original ones.
- NoiseFilter.StatisticalNoiseReduction: when the standard deviation is 0 the source returns the caller's own list object, not a copy. The model works on values, so this aliasing (a later change to the result also changing the input) is not captured.
- Concurrency: the driver shares one global bus without locking, and the model is single-threaded.
- GrovePi.AnalogRead: the reading is stated as 0..65535, which is what `number[1] * 256 + number[2]` allows for any two bytes. A 10-bit range of 0..1023 would depend on the microcontroller firmware, which is not part of this model.
- GrovePi.AnalogRead and GrovePi.Version raise when the block helper degrades to -1 (TypeError: an int cannot be indexed) or returns a short block (IndexError). The source does exactly this. So after ten failed block reads, these two operations surface an exception rather than a sentinel.
