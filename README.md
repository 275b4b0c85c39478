# HY3131 bench multimeter firmware, modelled in Dafny

This project models the core of the firmware of a bench multimeter built
around an STM32F1 microcontroller and a HY3131 metering chip. The modules
follow the firmware's own files:

- `scales.dfy`: the 44-row scale table of `Core/Src/dmm.c` and its queries. It covers modes, ranges, index validation, mode families and SI-prefix buckets.
- `dmm.dfy`: the measurement engine of `Core/Src/dmm.c`, a `Meter` class.
  - It holds the current scale, the 55-byte register image of the chip and the use-calibration flag.
  - Scale selection is modelled, along with the decoders of the AD1, RMS and frequency-counter results.
  - It models the bounded retry loop, arithmetic and quadratic-mean averaging, and the measurement wrapper.
  - The chip is a read oracle: `hw(t, reg)` is the byte register `reg` returns in the t-th read.
- `calib.dfy`: the user calibration of `Core/Src/calib.c`, a `Calibrator` class.
  - The partial data of each scale and the completeness rule are modelled, with the gain and offset formulas.
  - So are the calibration procedures and their error paths.
  - It also proves that a linear channel calibrated this way reads every input exactly.
- `application.dfy`: the front-panel logic of `Core/Src/application.c`, an `App` class.
  - It models the HOLD and AUTO switches, the search for a scale by mode and range, and the UP, DOWN, AUTO and alternate (AC/DC, 2W/4W/continuity/diode) requests.
  - It also models the soft-key menus, the key handler, and key edge detection with auto-repeat.
- `scpi.dfy`: the remote-control parser of `Core/Src/scpi.c`.
  - It models keyword matching with long and short forms (section 6.2.1 of SCPI-99 Volume 1), the short-form reply, and the splitting of a line into commands, path elements and channel numbers.
  - It also models the dispatch of `*IDN?`, `*RST` and `SENSe:FUNCtion`.
- `rtc.dfy`: the calendar arithmetic of the STM32F1 RTC driver (`stm32f1xx_hal_rtc.c`).
  - It models BCD conversion and the time of day within the 32-bit seconds counter.
  - It models the day count since 1 January 1970 and its inverse, and the Zeller week day.
  - It models the set/get functions with their handle lock and state.
- `kbd.dfy`: the 5 x 5 keypad scan of `Core/Src/kbd.c`, a `Keypad` class whose key matrix is an oracle `pressed(drive, sense)`.
- `tft.dfy`: the display driver of `Core/Src/tft.c` and `Core/Inc/tft.h`, a `Display` class.
  - It models RGB565 packing, font metrics, string width and the text cursor.
  - Lines, rectangles and rounded rectangles are modelled as the fills the driver sends, and Bresenham lines as pixel paths.
  - It also models register writes and the start-up table.
- `common.dfy`: shared pieces.
  - C doubles are the tagged values `Fin(real) | PosInf | NegInf | NaN` with IEEE special-value arithmetic; rounding is not modelled.
  - Also here: bytes, error codes and `Option`.

How the source's forms are kept:

- Code that updates globals becomes a class, with `modifies` clauses and with `ensures` giving the whole new state.
- Loops stay `while` loops, proved against specification functions. Properties of those functions are proved as lemmas.
- Where the source is wrong, the code as written and a corrected version are both modelled (see "Findings"). The rest of the model uses the corrected version.

Calibration points are kept as C doubles with NaN meaning "absent" rather than as optional reals. `CALIB_ERR_CheckDoubleVal` refuses only NaN, so an infinite reference is a present value the model must be able to hold.

`calib.c` is written against a channel-taking interface (`DMM_GetScale(1)`, `DMM_DGetAvgValue(1, n, &err)`) that `dmm.c` does not implement. The calibrator calls the meter's current scale and an averaging function over the same read oracle in its place.


## Model

| member | source | states |
|---|---|---|
| Scales.ModeOfCode | Core/Inc/dmm.h:49-63 | a mode code names a mode exactly for 0..10, and it names the mode whose code it is |
| Scales.ModeCodeRoundTrip | Core/Inc/dmm.h:49-63 | every mode's enum value reads back as that mode |
| Scales.CheckIdx | Core/Src/dmm.c:376-380 | success exactly for 0 <= idx < DMM_CNTSCALES, DMM_IDXCONFIG otherwise |
| Scales.GetMode | Core/Src/dmm.c:545-549 | -1 exactly for an invalid index; otherwise the code of the scale's mode |
| Scales.GetRange | Core/Src/dmm.c:562-566 | a positive range exactly for a valid index, 0.0 otherwise |
| Scales.IsAC | Core/Src/dmm.c:608-613 | only a valid index can be an AC scale |
| Scales.IsDC | Core/Src/dmm.c:627-632 | only a valid index can be a DC scale |
| Scales.IsResistor | Core/Src/dmm.c:645-650 | only a valid index can be a resistor scale |
| Scales.IsCapacitance | Core/Src/dmm.c:663-668 | only a valid index can be a capacitance scale |
| Scales.IsDiode | Core/Src/dmm.c:681-686 | only a valid index can be a diode scale |
| Scales.IsContinuity | Core/Src/dmm.c:699-704 | only a valid index can be a continuity scale |
| Scales.TableShape | Core/Src/dmm.c:48-119 | the registry and the label list have DMM_CNTSCALES rows, each with 20 register bytes |
| Scales.ModeBlocks | Core/Src/dmm.c:48-104 | rows are grouped by mode: a scale has mode m exactly when it lies in m's block of the scale enum |
| Scales.RangesIncrease | Core/Src/dmm.c:48-104 | neighbouring scales of one mode have strictly increasing ranges |
| Scales.RangesIncreaseWithinMode | Core/Src/dmm.c:48-104 | any two scales of one mode have strictly increasing ranges, so no range repeats within a mode |
| Scales.RangesIncreaseInBlock | Core/Src/dmm.c:48-104 | ranges increase across a whole mode block (induction over the block) |
| Scales.StepInBlock | Core/Src/dmm.c:48-104 | two neighbours inside a mode block have increasing ranges |
| Scales.RangesStepLow | Core/Src/dmm.c:50-75 | the range step for scales below 22, away from block ends |
| Scales.RangesStepHigh | Core/Src/dmm.c:75-103 | the range step for scales 22 and above, away from block ends |
| Scales.BlocksDisjoint | Core/Inc/dmm.h:70-127 | the mode blocks of the scale enum do not overlap |
| Scales.Families | Core/Src/dmm.c:608-704 | each mode predicate accepts exactly the scales of its modes, by scale enum name (both directions) |
| Scales.PrefixDecade | Core/Src/dmm.c:770-777 | the decade buckets bring any range from 1e-12 to 1e12 into [1, 1000) |
| Scales.RangeBounds | Core/Src/dmm.c:48-104 | every full-scale range lies between 50 nF and 50 MOhm |
| Scales.GetScaleUnit | Core/Src/dmm.c:762-805 | an invalid index fails with DMM_IDXCONFIG and nothing else; a valid one gives a factor putting the range in [1, 1000), the mode's unit and the scale's label |
| Scales.ScaleFactorInDecade | Core/Src/dmm.c:768-778 | the factor chosen for every registry range puts it in [1, 1000) |
| Dmm.LEBound | Core/Src/dmm.c:974 | k assembled bytes stay below 256^k (RMS below 2^40, counters below 2^24) |
| Dmm.LERoundTrip | Core/Src/dmm.c:974 | assembling the little-endian bytes of a value gives the value back |
| Dmm.ToLERoundTrip | Core/Src/dmm.c:974 | splitting an assembled value gives the bytes back |
| Dmm.Assemble | Core/Src/dmm.c:974 | the shift-or loop from the top byte down computes the little-endian value of the bytes |
| Dmm.Ad1WordSignExtends | Core/Src/dmm.c:1149-1153 | the left-justified int32 divided by 256 is the 24-bit two's complement value, in [-2^23, 2^23) |
| Dmm.Ad1Saturation | Core/Src/dmm.c:1155-1156 | only codes 0x7FFFFE and 0x7FFFFF saturate high and only 0x800000..0x800002 saturate low (both directions) |
| Dmm.Ad1InRange | Core/Src/dmm.c:1155-1163 | with finite coefficients the AD1 result is finite exactly inside the converter range, and is then mul*vad1, times Mult plus Add when calibration is on |
| Dmm.Ad1IdentityNeutral | Core/Src/dmm.c:1159-1162 | the identity coefficients give the same reading as calibration off |
| Dmm.RmsSquares | Core/Src/dmm.c:976-979 | the raw RMS reading is non-negative and squares to mul^2 * vrms |
| Dmm.FreqBounds | Core/Src/dmm.c:1123-1129 | the gate divisor is never 0 and fits uint32, CTB*4915200 fits uint64, the frequency is at most CTB and equals CTB for CTA = 0 |
| Dmm.Fetch | Core/Src/dmm.c:253-273 | a read transaction delivers n bytes, byte i from register reg+i |
| Dmm.Splice | Core/Src/dmm.c:972 | storing bytes into the image changes exactly the addressed slots |
| Dmm.Read | Core/Src/dmm.c:972 | a register read into the image keeps the scale, the flag and the measured values |
| Dmm.Status | Core/Src/dmm.c:944-1168 | a status read keeps the scale and the flag, and reports success or the index error only |
| Dmm.StatusErrors | Core/Src/dmm.c:950-956 | a status read fails exactly without a valid scale, then with NaN and no register read |
| Dmm.StatusOfIsStatusLike | Core/Src/dmm.c:944-1168 | the status read keeps the state well formed, as the retry loop needs |
| Dmm.Poll | Core/Src/dmm.c:410-413 | the retry counter stays within the bound; a non-NaN read stops without counting; a NaN read counts; a NaN with success means the bound was passed |
| Dmm.PollKeeps | Core/Src/dmm.c:410-413 | the retry loop keeps the state well formed and the scale and flag unchanged |
| Dmm.GetValue | Core/Src/dmm.c:403-430 | `DMM_DGetValue` keeps the state well formed and the scale and flag unchanged |
| Dmm.GetValueOutcome | Core/Src/dmm.c:410-417 | 1 to 257 status reads; a timeout exactly when 257 reads passed without error, even if the last was valid; success never comes with NaN |
| Dmm.GetValueNoScale | Core/Src/dmm.c:950-956 | without a scale one read and the index error |
| Dmm.FirstBad | Core/Src/dmm.c:466-472 | the position of the first sample the averaging loop rejects: all before it are good, it is not |
| Dmm.Accumulate | Core/Src/dmm.c:466-472 | a sweep that ends valid has no error |
| Dmm.SamplerKeepsChip | Core/Src/dmm.c:468 | each sample of the averaging loop keeps the scale and the flag |
| Dmm.AccumulateKeepsChip | Core/Src/dmm.c:466-472 | a whole sweep keeps the scale and the flag |
| Dmm.SamplerIsGetValue | Core/Src/dmm.c:468 | the averaging loop draws its samples from `DMM_DGetValue` |
| Dmm.AccumulateSamples | Core/Src/dmm.c:466-472 | the accumulator is the sum over the samples before the first rejected one; valid exactly when none is rejected, else with its error |
| Dmm.SampleNotNaN | Core/Src/dmm.c:469 | a sample without error is never NaN |
| Dmm.AvgValue | Core/Src/dmm.c:455-501 | `DMM_DGetAvgValue` keeps the state well formed and the scale and flag unchanged |
| Dmm.AvgValueMeaning | Core/Src/dmm.c:485-498 | on a non-AC, non-capacitance scale: the mean of n good samples; NaN with the error after an error; the unnormalised partial sum after an infinity without error |
| Dmm.AvgValueMeaningAC | Core/Src/dmm.c:464-478 | on an AC scale the same with the quadratic mean sqrt(sum v^2 / n) |
| Dmm.AvgCapacitance | Core/Src/dmm.c:479-484 | on a capacitance scale 0.0 after one good reading, NaN with the error otherwise |
| Dmm.MeasureRestoresFlag | Core/Src/dmm.c:1190-1195 | `DMM_Measure` stores the value in `dMeasuredVal[0]` and leaves the use-calibration flag as it was |
| Dmm.Zeros | Core/Src/dmm.c:318 | the cleared image: every byte 0 |
| Dmm.ScaleImageLayout | Core/Src/dmm.c:318-359 | the selected image holds exactly the 20 configuration bytes at R20..R33, CTSTA = 40h, the counter preset (B5h on FREQ, BFh elsewhere) and 0 elsewhere |
| Dmm.LoadedImage | Core/Src/dmm.c:341-343 | the image after the copy has the image size |
| Dmm.LoadedImageIsScaleImage | Core/Src/dmm.c:341-359 | the loaded image is final except on FREQ, where the one-second gate preset completes it |
| Dmm.R37SlotOutsideImage | Core/Src/dmm.c:330-331 | the slot `curSts.r[0x17]` lies outside the 23-byte array R20..R36 that every other index hits |
| Dmm.Meter.CurrentScale | Core/Src/dmm.c:514-517 | the current scale is -1 or a valid index |
| Dmm.Meter.CurrentMode | Core/Src/dmm.c:529-533 | -1 exactly without a valid scale, else the code of its mode |
| Dmm.Meter.CurrentRange | Core/Src/dmm.c:568-572 | a positive range exactly with a valid scale |
| Dmm.Meter.SetUseCalib | Core/Src/dmm.c:587-590 | sets the use-calibration flag, nothing else |
| Dmm.Meter.constructor | Core/Src/dmm.c:123-128 | the start-up state: no scale, calibration on, image and measured values zero |
| Dmm.Meter.ReadByte | Core/Src/dmm.c:964 | one read transaction of one register into a local |
| Dmm.Meter.ReadRegs | Core/Src/dmm.c:972 | one read transaction of n registers into the image, as `Read` |
| Dmm.Meter.Store3 | Core/Src/dmm.c:1022-1024 | three bytes stored into the image, nothing else |
| Dmm.Meter.StartFreqMeasure | Core/Src/dmm.c:904-918 | CTA preset to the one-second gate 0xB50000 |
| Dmm.Meter.SetScale | Core/Src/dmm.c:316-362 | result CheckIdx(i); a valid index selects it with the scale's image and R37 = 60h; an invalid one leaves no scale and a zero image |
| Dmm.Meter.Clear | Core/Src/dmm.c:318 | the image becomes all zeros |
| Dmm.Meter.LoadConfig | Core/Src/dmm.c:341 | the 20 configuration bytes copied to R20..R33, the rest unchanged |
| Dmm.Meter.DecodeAd1 | Core/Src/dmm.c:1146-1163 | the AD1 read and decode, as `Ad1Path` |
| Dmm.Meter.StatusAC | Core/Src/dmm.c:959-980 | the AC branch, as `AcPath` |
| Dmm.Meter.StatusCapModeI | Core/Src/dmm.c:981-1034 | the capacitance Mode I branch, as `CapModeIPath` |
| Dmm.Meter.ReadCapCounters | Core/Src/dmm.c:1009-1033 | the Mode I counter reads and CTA preset, as `CapCounters` |
| Dmm.Meter.StatusCapModeII | Core/Src/dmm.c:1035-1096 | the capacitance Mode II branch (one INTF poll), as `CapModeIIPath` |
| Dmm.Meter.StatusFreq | Core/Src/dmm.c:1097-1135 | the FREQ branch, as `FreqPath` |
| Dmm.Meter.ReadFreqCounters | Core/Src/dmm.c:1115-1134 | the counter reads, frequency, duty cycle and new gate, as `FreqCounters` |
| Dmm.Meter.StatusDC | Core/Src/dmm.c:1136-1164 | the AD1 branch, as `DcPath` |
| Dmm.Meter.DGetStatus | Core/Src/dmm.c:944-1168 | value, error and new state are those of `Status` |
| Dmm.Meter.DGetValue | Core/Src/dmm.c:403-430 | value, error and new state are those of `GetValue` |
| Dmm.Meter.PollStatus | Core/Src/dmm.c:410-413 | the retry loop ends as `Poll` |
| Dmm.Meter.SumSamples | Core/Src/dmm.c:466-472 | the sampling loop ends as `Accumulate` |
| Dmm.Meter.AddSample | Core/Src/dmm.c:468-471 | one sample taken and added when good |
| Dmm.Meter.DGetAvgValue | Core/Src/dmm.c:455-501 | value, error and new state are those of `AvgValue` |
| Dmm.Meter.Measure | Core/Src/dmm.c:1186-1198 | error and new state are those of `MeasureOutcome` |
| Dmm.SignExtend24 | Core/Src/dmm.c:1149-1153 | two's complement of a 24-bit value; `Ad1WordSignExtends` states that the firmware's shift-and-divide computes it |
| Dmm.Ad1Value | Core/Src/dmm.c:1155-1163 | the AD1 result; `Ad1Saturation`, `Ad1InRange` and `Ad1IdentityNeutral` state when it saturates and what it reads |
| Dmm.Calibrated | Core/Src/dmm.c:1159-1162 | `v * Mult + Add` on request; `Ad1IdentityNeutral` and the calibration lemmas state what it reads |
| Dmm.RmsValue | Core/Src/dmm.c:976-979 | the RMS result; `RmsSquares` and `AvgValueMeaningAC` state what it reads |
| Dmm.CountValue | Core/Src/dmm.c:1012-1017 | the Mode I capacitance count times the multiplier, calibrated on request; `Meter.ReadCapCounters` computes it |
| Dmm.FreqValue | Core/Src/dmm.c:1123-1129 | the frequency from the gate and event counters; `FreqBounds` states its bounds |
| Dmm.DutyCycle | Core/Src/dmm.c:1130-1132 | CTC over the gate; `Meter.ReadFreqCounters` computes it |
| Calib.WithMeasured | Core/Src/calib.c:255 | storing a measured point changes that point only and leaves the references and the dirty mark |
| Calib.WithReference | Core/Src/calib.c:420 | storing a reference changes that reference only and leaves the measured points and the dirty mark |
| Calib.CheckDoubleVal | Core/Src/calib.c:639-644 | success exactly when the value is not NaN, otherwise the NaN error code |
| Calib.CompleteMeaning | Core/Src/calib.c:674-687 | a complete scale is a valid one with zero and positive point present, a DC one also with the negative point; AC, resistance and diode scales complete with zero and positive point; capacitance, frequency and temperature never complete |
| Calib.FamilyOf | Core/Src/calib.c:141-145 | AC, DC, two-point (resistance and continuity with the 50 mOhm lead reference, diode with 0) or uncalibrated, each exactly for its mode test |
| Calib.OrZero | Core/Src/calib.c:164-167 | the result is never NaN: NaN becomes 0, anything else is kept |
| Calib.ComputeMult | Core/Src/calib.c:137-169 | the gain is never NaN and is 0 on a scale no formula covers |
| Calib.ComputeAddAsWritten | Core/Src/calib.c:186-219 | the offset as written is never NaN and is 0 on a scale no formula covers |
| Calib.ComputeAdd | Core/Src/calib.c:186-219 | the offset with the DC and two-point formulas corrected (the calib.c:205 and calib.c:207-211 Findings rows) is never NaN and is 0 on a scale no formula covers |
| Calib.Coefficients | Core/Src/calib.c:691-692 | the coefficients of a scale are those of its family, with the corrected offset |
| Calib.CoefficientsAsWritten | Core/Src/calib.c:186-219 | the coefficients of a scale with the offset as written are those of its family under the as-written formula |
| Calib.Gain | Core/Src/calib.c:137-169 | the gain formula of each family; `GainCancels` and the three `*CalibrationExact` lemmas state that it undoes a linear channel's gain |
| Calib.Offset | Core/Src/calib.c:186-219 | the corrected offset of each family; `DCZeroReadsZero` and `TwoPointZeroReadsReference` state that the zero point then reads its reference |
| Calib.OffsetAsWritten | Core/Src/calib.c:195-211 | the offset formulas as calib.c writes them; `AsWrittenDCZeroReadsNegated` and `AsWrittenTwoPointShifted` state what they make the meter read |
| Calib.ProductNonZero | Core/Src/calib.c:155 | the denominator of a gain formula is non-zero when both factors are |
| Calib.GainCancels | Core/Src/calib.c:155 | a gain computed from readings made with gain g undoes g |
| Calib.Unscale | Core/Src/calib.c:155-161 | applying the inverse gain and the matching offset returns the input |
| Calib.SquareUnique | Core/Src/calib.c:150 | two non-negative numbers with the same square are equal |
| Calib.SqrtOfSquare | Core/Src/calib.c:150 | the square root of a square of a non-negative number is that number |
| Calib.DCCalibrationExact | Core/Src/calib.c:137-219 | with the corrected DC offset of the calib.c:205 Findings row, a linear DC channel calibrated on 0, the positive and the negative reference reads every input as itself afterwards |
| Calib.TwoPointCalibrationExact | Core/Src/calib.c:160-161 | with the corrected two-point offset of the calib.c:207-211 Findings row, a linear resistance or diode channel calibrated on its zero reference and the positive reference reads every input as itself afterwards; `AsWrittenTwoPointShifted` states what the offset as written gives |
| Calib.ACCalibrationExact | Core/Src/calib.c:150 | an AC channel with an offset in quadrature calibrated on 0 and the positive reference reads every input as itself afterwards |
| Calib.AsWrittenDCZeroReadsNegated | Core/Src/calib.c:205 | with the offset as written, the DC zero point reads minus its own raw reading instead of 0 |
| Calib.DCZeroReadsZero | Core/Src/calib.c:198-211 | with the corrected offset the DC zero point reads 0 |
| Calib.AsWrittenDCOffsetExample | Core/Src/calib.c:205 | a unit-gain channel with a 1 mV offset reads its zero point as -1 mV as written and as 0 corrected |
| Calib.AsWrittenTwoPointZeroReading | Core/Src/calib.c:207-211 | with the two-point offset as written the zero point reads `zeroRef * (1 + m) - msZero` instead of `zeroRef` |
| Calib.AsWrittenTwoPointShifted | Core/Src/calib.c:207-211 | with the two-point offset as written a linear resistance or diode channel reads every input shifted by `zeroRef / g - msZero` |
| Calib.TwoPointZeroReadsReference | Core/Src/calib.c:207-211 | with the corrected two-point offset the zero point reads its reference |
| Calib.AsWrittenTwoPointOffsetExample | Core/Src/calib.c:207-211 | the 500 Ohm scale with unit gain and leads reading 10 mOhm low reads its 50 mOhm zero point as 60 mOhm as written and 50 mOhm corrected |
| Calib.NormalisedMeaning | Core/Src/calib.c:712-727 | after replacing null values the gain is neither 0 nor NaN and the offset not NaN; usable coefficients are kept; it is idempotent; an all-zero image becomes the identity |
| Calib.FinaliseMeaning | Core/Src/calib.c:668-697 | completing touches only the selected scale and only its dirty mark among the partial data; doing it twice gives the same coefficients |
| Calib.EarlyReadAsWritten | Core/Src/calib.c:396-410 | the early branch reads an element exactly when the early flag is set, whatever the index check said |
| Calib.EarlyReadUnchecked | Core/Src/calib.c:396-410 | with no scale selected the index check fails yet the early branch reads element -1 |
| Calib.RawAverage | Core/Src/calib.c:248-250 | the calibration average is taken on the selected scale with the calibration switched off |
| Calib.Calibrator.constructor | Core/Src/calib.c:81-86 | a calibrator over a valid meter with its own partial data |
| Calib.Calibrator.Init | Core/Src/calib.c:81-86 | succeeds with no partial data and identity coefficients on every scale |
| Calib.Calibrator.InitPartCalibData | Core/Src/calib.c:610-622 | every scale's partial data is absent and clean |
| Calib.Calibrator.ReadAllCalibsFromEPROM | Core/Src/calib.c:107-117 | succeeds with identity coefficients on every scale (the cleared image normalised) |
| Calib.Calibrator.ReplaceCalibNullValues | Core/Src/calib.c:712-727 | every scale's coefficients become their normalised form |
| Calib.Calibrator.CheckCompleteCalib | Core/Src/calib.c:668-697 | reports completion exactly when the selected scale is valid and complete, and the new state is the finalised one |
| Calib.Calibrator.MeasureForCalib | Core/Src/calib.c:241-269 | on an invalid scale an error and NaN with nothing stored; otherwise the uncalibrated average is stored as the point on success and NaN is reported on error |
| Calib.Calibrator.CalibOnZero | Core/Src/calib.c:290-314 | measures the zero point of a valid scale and finalises it when complete; an invalid scale is refused with no change |
| Calib.Calibrator.CalibOnReference | Core/Src/calib.c:394-434 | measures or reports the early point, refuses a missing one, stores the checked reference (NaN if refused) and finalises when complete; an invalid scale is refused with no change |
| Calib.Calibrator.ImportCalibCoefficients | Core/Src/calib.c:576-586 | for a valid index the coefficients are replaced and the scale marked dirty; otherwise nothing changes |
| Calib.Finalise | Core/Src/calib.c:668-697 | the data and coefficients left by completing a scale; `FinaliseMeaning` states that only the selected complete scale changes and that it is idempotent |
| Kbd.KeyCodeRoundTrip | Core/Src/kbd.c:58 | the code `1 + 5 * sense + drive` of a line pair lies in 1..25 and gives back both lines |
| Kbd.KeyDecodeRoundTrip | Core/Inc/kbd.h:11-18 | every key code 1..25 names a drive and a sense line that encode back to it |
| Kbd.FirstSense | Core/Src/kbd.c:54-61 | the sense scan stops on the first sense line showing a key, all lines before it showing none |
| Kbd.HitNone | Core/Src/kbd.c:49-64 | the scan finds nothing exactly when no key at or below the start drive line is down |
| Kbd.HitSome | Core/Src/kbd.c:49-64 | otherwise it finds the key on the highest drive line showing one, on that line's lowest sense line |
| Kbd.ReadMeaning | Core/Src/kbd.c:44-67 | the reported code is 0 exactly when no key is down, and otherwise lies in 1..25 and names a key that is down |
| Kbd.LoweredCountsDown | Core/Src/kbd.c:49 | the drive lines are pulled low once each, counting down from 4 |
| Kbd.ScanStep | Core/Src/kbd.c:49-64 | a drive line with no key lets the scan go on to the next lower line; one with a key ends it |
| Kbd.LoweredEndsAtHit | Core/Src/kbd.c:49 | the scan stops on the drive line of the key it finds and pulls all five low when there is none |
| Kbd.Keypad.constructor | Core/Src/kbd.c:19-42 | a keypad with its own pin state |
| Kbd.Keypad.Init | Core/Src/kbd.c:19-42 | every drive pin is an open-drain output set high and every sense pin a pulled-up input set high |
| Kbd.Keypad.ReadKey | Core/Src/kbd.c:44-67 | the `uint8_t` count-down loop returns the scan's key and pulls low exactly the scan's drive lines, leaving all drive lines high |
| Kbd.Keypad.DriveAndScan | Core/Src/kbd.c:51-63 | one drive pass returns the first key on that line and leaves every drive line high |
| Kbd.Keypad.ScanLine | Core/Src/kbd.c:54-61 | the sense loop with one drive line low returns the first key on that line, or 0 |
| Kbd.Keypad.SenseLowAt | Core/Src/kbd.c:56 | a sense pin reads low exactly when the key joining it to the one low drive line is pressed |
| Kbd.KeyCode | Core/Src/kbd.c:58 | the code of a line pair; `KeyCodeRoundTrip` and `KeyDecodeRoundTrip` state that it is a bijection onto 1..25 |
| Kbd.Read | Core/Src/kbd.c:44-67 | what `KBD_Read` reports; `ReadMeaning` states that it is 0 exactly when no key is down and otherwise a key that is down |
| Application.SwitchedMeaning | Core/Src/application.c:397-404 | modes 0 and 1 force the flag and are idempotent; any other mode toggles it, so twice restores it |
| Application.ScaleWith | Core/Src/application.c:546-552 | the search result is -1 or a scale at or after the start with the requested mode and range |
| Application.ScaleWithFirst | Core/Src/application.c:546-553 | no scale before the one found (and none at all when -1 is returned) has the requested mode and range |
| Application.FindScale | Core/Src/application.c:538-554 | the `uint8_t` search loop returns the first scale of the table with that mode and range, or -1 |
| Application.UpMovesWithinMode | Core/Src/application.c:572-578 | UP goes to the next scale when it has the same mode (a larger range), otherwise stays |
| Application.DownMovesWithinMode | Core/Src/application.c:580-584 | DOWN goes to the previous scale when it has the same mode (a smaller range), otherwise the request is left unresolved |
| Application.AlternateRotation | Core/Src/application.c:588-612 | 2-wire goes to 4-wire 500 Ohm, 4-wire to continuity, continuity to diode, diode to 2-wire 500 Ohm; capacitance, frequency and temperature get no valid scale |
| Application.AlternateCycle | Core/Src/application.c:590-593 | four alternate presses from 2-wire 500 Ohm come back to it |
| Application.AlternateCoupling | Core/Src/application.c:595-607 | for AC/DC voltage and current the alternate is the partner mode's scale of the same range, or -1 when none has it |
| Application.AlternateRoundTrip | Core/Src/application.c:595-607 | switching AC/DC twice returns to the starting scale |
| Application.NoAlternateFor50mV | Core/Src/application.c:595-597 | the 50 mV DC range has no AC counterpart, so AC/DC is refused there |
| Application.MenuOfMeaning | Core/Src/application.c:683-702 | every mode with a menu gets the menu whose legend names it; frequency and temperature reload the current menu |
| Application.MenuTargetMeaning | Core/Src/application.c:431-442 | with the intended table 0 reloads the current menu, 1..6 select that menu, anything else changes nothing |
| Application.AsWrittenReloadLoadsVoltage | Core/Src/application.c:120-181 | with the table as written (ids all 1) reloading always loads the voltage menu, never the current one |
| Application.AfterSetScale | Core/Src/application.c:556-705 | after `SetScale` a menu is current |
| Application.SetScaleOutcome | Core/Src/application.c:621-625 | with the corrected `DoMenu` of the application.c:526 and application.c:120-181 Findings rows, a request resolving to no valid scale changes neither the scale nor the menu; a valid one moves there, clears HOLD and loads its mode's menu |
| Application.RangeKeySetsAuto | Core/Src/application.c:568-570 | RANGE turns AUTO on and changes neither scale nor menu |
| Application.StepKeysClearAuto | Core/Src/application.c:572-584 | with the corrected `DoMenu` of the application.c:526 Findings row, UP and DOWN turn AUTO off and stay within the current mode |
| Application.AutorangeAsWritten | Core/Src/application.c:526 | as written AUTO after `SetScale` is the inverse of what the switch set |
| Application.AsWrittenRangeKeyClearsAuto | Core/Src/application.c:526 | as written RANGE leaves AUTO off and UP and DOWN leave it on |
| Application.Reload | Core/Src/application.c:433-434 | with the corrected menu ids of the application.c:120-181 Findings row, reloading the current menu leaves the state as it was |
| Application.AfterMenuFunction | Core/Src/application.c:529-536 | a menu stays current after a soft key |
| Application.MenuFunctionMeaning | Core/Src/application.c:529-536 | with the corrected `DoMenu` of the application.c:526 and application.c:120-181 Findings rows, F1 in the voltage, current and resistance menus is the alternate switch; every other soft key changes nothing |
| Application.AfterKey | Core/Src/application.c:748-784 | a menu stays current after any key |
| Application.KeySelects | Core/Src/application.c:750-769 | a key that selects a valid scale moves there |
| Application.ModeKeysSelect | Core/Src/application.c:750-755 | VOLT, AMP and OHM from another mode enter DC 1 kV, DC 10 A and 500 Ohm; CAP, FREQ and TEMP always enter their scale |
| Application.VoltKeyTwice | Core/Src/application.c:750 | VOLT in a voltage scale with a counterpart goes to the partner mode at the same range, and twice comes back |
| Application.PollEdges | Core/Src/application.c:735-745 | a new key fires at once and restarts the count; an unchanged key under HOLD, or no key, does nothing |
| Application.PollTimeoutBound | Core/Src/application.c:735-738 | the repeat count stays below `START_REPEAT`, so the 16-bit counter never wraps |
| Application.HeldKeyRepeats | Core/Src/application.c:735-745 | holding a fired key fires it again on every fifth poll and only then |
| Application.App.constructor | Core/Src/application.c:185-187 | HOLD off, AUTO on, no menu, no last key |
| Application.App.SetHold | Core/Src/application.c:397-404 | HOLD becomes the switched value of the old one |
| Application.App.SetAuto | Core/Src/application.c:414-421 | AUTO becomes the switched value of the old one |
| Application.App.DoMenu | Core/Src/application.c:431-442 | the current menu becomes the target on the intended table, or stays |
| Application.App.ResolveRequest | Core/Src/application.c:564-619 | the scale to try is the resolved request and AUTO becomes its value after the switch |
| Application.App.StepUp | Core/Src/application.c:572-578 | the UP branch's scale |
| Application.App.StepDown | Core/Src/application.c:580-584 | the DOWN branch's scale |
| Application.App.AlternateOf | Core/Src/application.c:586-614 | the alternate of the current scale |
| Application.App.SetScale | Core/Src/application.c:556-705 | the new state is `AfterSetScale` of the old one, and the engine changes scale only for a valid different scale |
| Application.App.MenuFunction | Core/Src/application.c:529-536 | the new state is `AfterMenuFunction` of the old one |
| Application.App.Start | Core/Src/application.c:714-722 | the meter starts on DC 1 kV with HOLD off, AUTO on and the voltage menu |
| Application.App.PollKey | Core/Src/application.c:733-786 | one loop pass updates the last key and repeat count as `Poll` says and acts on the key exactly when it fires |
| Application.App.CountRepeat | Core/Src/application.c:735-741 | the count step of `Poll`, firing exactly when the key differs from the last |
| Application.App.OnKey | Core/Src/application.c:748-784 | the new state is `AfterKey` of the old one and the repeat count is kept |
| Application.Requested | Core/Src/application.c:566-616 | the scale the switch of `SetScale` tries; `UpMovesWithinMode` and `DownMovesWithinMode` state the steps and `AlternateRotation`, `AlternateCoupling` the alternate |
| Application.AutoFor | Core/Src/application.c:566-616 | the AUTO setting the switch applies; `RangeKeySetsAuto` and `StepKeysClearAuto` state its effect |
| Application.Alternate | Core/Src/application.c:586-612 | the scale ALT asks for; `AlternateRotation`, `AlternateCycle`, `AlternateCoupling` and `AlternateRoundTrip` state it |
| Application.MenuOf | Core/Src/application.c:683-702 | the menu `SetScale` loads for a mode; `MenuOfMeaning` states which |
| Application.Callback | Core/Src/application.c:120-181 | the button callbacks of the menus; `MenuFunctionMeaning` states that only F1 of the voltage, current and resistance menus has one |
| Application.KeyAction | Core/Src/application.c:748-769 | what a key does in a mode; `ModeKeysSelect`, `KeySelects` and `VoltKeyTwice` state it |
| Application.Poll | Core/Src/application.c:735-745 | the key-repeat logic; `PollEdges`, `HeldKeyRepeats` and `PollTimeoutBound` state when a key fires |
| Application.Counted | Core/Src/application.c:735-741 | the count step of the key-repeat logic; `PollTimeoutBound` states that the count stays below `START_REPEAT` |
| Scpi.Upper | Core/Src/scpi.c:175 | `toupper` maps a lower-case letter to its upper-case one and leaves every other character |
| Scpi.TableMatchesEnum | Core/Src/scpi.c:26-126 | with the missing commas restored the table has one keyword per enum member, each at its member's number |
| Scpi.TableShortAsWritten | Core/Src/scpi.c:55-58 | as written "SHOW" and "SCALar" fuse with the next string, so the table is two short and every later member names the wrong keyword |
| Scpi.SkipSpace | Core/Src/scpi.c:182-183 | the whitespace skip stops on the first non-space character and passes only spaces |
| Scpi.NextUpper | Core/Src/scpi.c:202-204 | the look-ahead stops on a character that is not lower-case |
| Scpi.FirstMatch | Core/Src/scpi.c:168-215 | the search returns -1 or a keyword at or after the start that matches the command |
| Scpi.FirstMatchFirst | Core/Src/scpi.c:168-213 | no keyword before the one found matches |
| Scpi.UpperAll | Core/Src/scpi.c:175 | upper-casing a string maps `toupper` over every character |
| Scpi.UpperFacts | Core/Src/scpi.c:175-196 | `toupper` is idempotent and keeps spaces, letters and the terminator |
| Scpi.SkipSpaceUpper | Core/Src/scpi.c:182-183 | the whitespace skip is the same on the upper-cased command |
| Scpi.AcceptsIgnoresCase | Core/Src/scpi.c:173-209 | matching a command and its upper-case spelling give the same answer |
| Scpi.FirstMatchMeaning | Core/Src/scpi.c:164-216 | -1 exactly when no keyword matches; otherwise the keyword found matches and none before it does |
| Scpi.MatchKeyword | Core/Src/scpi.c:173-211 | the character loop over one keyword accepts exactly the commands the keyword matches |
| Scpi.FindFirst | Core/Src/scpi.c:168-215 | the loop over a table returns its first matching keyword, or -1 |
| Scpi.Match | Core/Src/scpi.c:164-216 | `SCPI_Match` returns the first keyword of the corrected table the command matches |
| Scpi.Abbrev | Core/Src/scpi.c:156-157 | the kept characters are no more than the keyword's and are all upper-case letters or spaces |
| Scpi.ShortForm | Core/Src/scpi.c:152-160 | the short form has at most nine characters, all upper-case letters or spaces |
| Scpi.LongFormAccepted | Core/Src/scpi.c:173-209 | a keyword spelt out in full, in any case, followed by anything, matches |
| Scpi.AbbrevAfterLower | Core/Src/scpi.c:202-207 | after an optional letter the short form of the rest starts a new word or is empty |
| Scpi.AcceptsKept | Core/Src/scpi.c:185-190 | a required character the command repeats advances the match |
| Scpi.AcceptsSkipped | Core/Src/scpi.c:200-207 | an optional letter the command leaves out is skipped to the next required character |
| Scpi.ShortFormAccepted | Core/Src/scpi.c:173-209 | the short form followed by nothing or by a non-letter matches a regular keyword |
| Scpi.ShortFormRoundTrip | Core/Src/scpi.c:145-216 | the reply of `SCPI_Short` for a regular keyword is accepted by that keyword |
| Scpi.EarlierWins | Core/Src/scpi.c:168-212 | a keyword that matches shadows every later one |
| Scpi.FresShortFormAsWritten | Core/Src/scpi.c:49 | as written four-wire resistance is spelt `FourwireRESistance` and does not accept `FRES` |
| Scpi.FresShortFormAccepted | Core/Src/scpi.c:99 | spelt `FRESistance` the keyword accepts `FRES` |
| Scpi.DbmShadowedAsWritten | Core/Src/scpi.c:62-63 | as written `DB` precedes `DBM` and the command `DBM` resolves to `DB` or earlier |
| Scpi.DbmBeforeDb | Core/Src/scpi.c:112-113 | with `DBM` first the command `DBM` resolves no later than `DBM`, and `DB` does not resolve to `DBM` |
| Scpi.VoltDcBeforeVolt | Core/Src/scpi.c:38-42 | the command `VOLT DC` resolves no later than `VOLTage DC` |
| Scpi.AbbrevAppend | Core/Src/scpi.c:154-159 | dropping characters commutes with concatenation |
| Scpi.ShortOf | Core/Src/scpi.c:152-161 | the copy loop into the 10-byte buffer yields the short form |
| Scpi.Short | Core/Src/scpi.c:145-162 | the short form of a keyword number in range, the empty string for one past the table |
| Scpi.TokenEnd | Core/Src/scpi.c:227 | a command ends at the first `;` or at the end of the line |
| Scpi.TokensFrom | Core/Src/scpi.c:227 | there are no more commands than characters left |
| Scpi.Tokens | Core/Src/scpi.c:227 | `strtok` returns only non-empty commands without `;` |
| Scpi.TokensJoin | Core/Src/scpi.c:227 | splitting commands joined with `;` gives them back |
| Scpi.TokensJoinFrom | Core/Src/scpi.c:227 | splitting from a join point gives back the remaining commands |
| Scpi.TokenEndRun | Core/Src/scpi.c:227 | a `;`-free run followed by `;` or the end is exactly one command |
| Scpi.TokensNonEmpty | Core/Src/scpi.c:227 | every command `strtok` returns is non-empty and holds no `;` |
| Scpi.KeywordEnd | Core/Src/scpi.c:232-233 | the keyword run stops on the first character that is neither a letter nor `*` |
| Scpi.DigitEnd | Core/Src/scpi.c:239-240 | the digit run stops on the first non-digit |
| Scpi.Render | Core/Src/scpi.c:235-240 | a written number is a non-empty run of digits |
| Scpi.DecimalRender | Core/Src/scpi.c:237 | `atoi` of a written-out number gives the number back |
| Scpi.ParseNode | Core/Src/scpi.c:232-249 | one path element is a run of letters and `*` with a channel of -1 or more, and the cursor advances unless the command is used up |
| Scpi.PathFrom | Core/Src/scpi.c:230-253 | a path has one to five elements and ends inside the command |
| Scpi.KeywordEndRun | Core/Src/scpi.c:232-233 | a run of keyword characters followed by something else is one keyword |
| Scpi.DigitEndRun | Core/Src/scpi.c:239-240 | a run of digits followed by something else is one number |
| Scpi.ParseNodeUnparse | Core/Src/scpi.c:232-249 | reading a written-out path element gives it back with the delimiter after it |
| Scpi.Numbers | Core/Src/scpi.c:249 | one keyword number per path element |
| Scpi.Channels | Core/Src/scpi.c:237-243 | one channel number per path element |
| Scpi.PathAdvance | Core/Src/scpi.c:230-253 | one turn of the path loop either finishes the path or extends the elements read so far by the next one |
| Scpi.ReadNode | Core/Src/scpi.c:232-247 | the character loops over one path element compute `ParseNode` |
| Scpi.FuncKeyword | Core/Src/scpi.c:309-319 | every mode is named in the reply by a keyword of the table |
| Scpi.FuncKeywordSelectsMode | Core/Src/scpi.c:288-319 | the keyword naming a mode, sent back as a parameter, selects a scale of that mode |
| Scpi.FuncScaleNamedBack | Core/Src/scpi.c:288-319 | a parameter that selects a scale is the keyword the reply uses for that scale's mode |
| Scpi.Channel | Core/Src/scpi.c:282-283 | the channel is kept when it is 1..3 and is 1 otherwise |
| Scpi.FuncReply | Core/Src/scpi.c:304-321 | "Error" exactly for an invalid scale, otherwise the short form of the keyword naming its mode |
| Scpi.Dispatch | Core/Src/scpi.c:264-325 | a command answers or acts exactly when it is `*IDN?`, `*RST` or `SENSe:FUNCtion`; the `SENSe:FUNCtion` reply is taken from the scale read back after the selection |
| Scpi.FuncReplyNamesSelection | Core/Src/scpi.c:279-321 | a `SENSe:FUNCtion` that selects a scale does so on channel 1..3 and, when the scale read back on that channel is the one selected, replies with the name of the parameter it was given |
| Scpi.RunCommand | Core/Src/scpi.c:228-325 | a command answers exactly for `*IDN?`, `*RST` or `SENSe:FUNCtion`; a one-element path keeps the stale second element |
| Scpi.Store | Core/Src/scpi.c:237-249 | element `num` of the index arrays receives the keyword's number and channel, and nothing else changes |
| Scpi.ReadPath | Core/Src/scpi.c:230-253 | the path loop reads `PathFrom` and fills the index arrays with its numbers and channels, leaving later entries |
| Scpi.NumbersAt | Core/Src/scpi.c:249 | entry k of the keyword numbers is the match of element k |
| Scpi.ChannelsAt | Core/Src/scpi.c:237-243 | entry k of the channels is element k's channel |
| Scpi.ReadParams | Core/Src/scpi.c:255-261 | the parameter text left after the path |
| Scpi.FuncReplyOf | Core/Src/scpi.c:304-321 | the reply for the selected scale |
| Scpi.DispatchCommand | Core/Src/scpi.c:264-325 | the switch on the first keyword computes `Dispatch`, the reply naming the scale read back after the selection |
| Scpi.ExecuteCommand | Core/Src/scpi.c:228-325 | one turn of the command loop returns the command's outcome and leaves the second path element for the next |
| Scpi.Execute | Core/Src/scpi.c:220-327 | the outcome is that of the first of the `;`-separated commands that answers or acts, the loop returning there; a line with none gives no reply and no action |
| Scpi.OthersIgnored | Core/Src/scpi.c:264-326 | a line of commands that are neither `*IDN?`, `*RST` nor `SENSe:FUNCtion` gives no reply and no action |
| Scpi.Accepts | Core/Src/scpi.c:173-211 | the matching rule of `SCPI_Match`'s inner loop; `MatchKeyword`, `LongFormAccepted`, `ShortFormAccepted` and `AcceptsIgnoresCase` state what it accepts |
| Scpi.FuncScale | Core/Src/scpi.c:288-301 | the scale a parameter selects is `SCALE_ILLEGAL` or a valid index; `FuncKeywordSelectsMode` and `FuncScaleNamedBack` pair it with the reply's keyword |
| Scpi.Params | Core/Src/scpi.c:255-261 | the parameters are a tail of the command |
| Scpi.Decimal | Core/Src/scpi.c:237 | `atoi` of a digit run; `DecimalRender` states that it reads a written-out number back |
| Scpi.RunFrom | Core/Src/scpi.c:228-327 | the command loop over the `;`-separated commands; `Execute` computes it and `OthersIgnored` states that commands that neither answer nor act are skipped |
| Rtc.FromBcd | Drivers/STM32F1xx_HAL_Driver/Src/stm32f1xx_hal_rtc.c:984-988 | the decoded value of any byte is at most 165 |
| Rtc.BcdRoundTrip | Drivers/STM32F1xx_HAL_Driver/Src/stm32f1xx_hal_rtc.c:966-988 | a value up to 99 becomes a BCD byte that decodes back to it |
| Rtc.BcdRoundTripBack | Drivers/STM32F1xx_HAL_Driver/Src/stm32f1xx_hal_rtc.c:966-988 | a BCD byte decodes to a value up to 99 whose BCD form is that byte |
| Rtc.ByteToBcd2 | Drivers/STM32F1xx_HAL_Driver/Src/stm32f1xx_hal_rtc.c:966-977 | the repeated-subtraction loop yields the tens in the high nibble, truncated to 8 bits, and the units in the low one |
| Rtc.TimeOf | Drivers/STM32F1xx_HAL_Driver/Src/stm32f1xx_hal_rtc.c:586-591 | the time read from a counter is a valid time whose seconds since midnight are the counter modulo one day |
| Rtc.SetTimeThenGetTime | Drivers/STM32F1xx_HAL_Driver/Src/stm32f1xx_hal_rtc.c:506-518 | setting a valid time keeps the day of the counter and reads back as that time |
| Rtc.DaySplit | Drivers/STM32F1xx_HAL_Driver/Src/stm32f1xx_hal_rtc.c:507 | a counter splits uniquely into whole days and the second of the day |
| Rtc.TimeDigits | Drivers/STM32F1xx_HAL_Driver/Src/stm32f1xx_hal_rtc.c:589-591 | a valid time is determined by its seconds since midnight |
| Rtc.WeekDayNum | Drivers/STM32F1xx_HAL_Driver/Src/stm32f1xx_hal_rtc.c:1005-1016 | Zeller's congruence gives a week day from 0 to 6 |
| Rtc.CenturyTerms | Drivers/STM32F1xx_HAL_Driver/Src/stm32f1xx_hal_rtc.c:670 | the century terms of the day count add up to 15 for the years 1999 to 2099 |
| Rtc.DayCountRange | Drivers/STM32F1xx_HAL_Driver/Src/stm32f1xx_hal_rtc.c:660-674 | the dates of 2000 to 2099 are days 10957 to 47481 since 1 January 1970 |
| Rtc.GregorianCorrection | Drivers/STM32F1xx_HAL_Driver/Src/stm32f1xx_hal_rtc.c:725-726 | over those days the Gregorian correction of the reading is the constant 12 |
| Rtc.YearOfDays | Drivers/STM32F1xx_HAL_Driver/Src/stm32f1xx_hal_rtc.c:727 | the year formula finds the year of a day within the March-based 365.25-day calendar |
| Rtc.MonthOfDays | Drivers/STM32F1xx_HAL_Driver/Src/stm32f1xx_hal_rtc.c:729-730 | the month and date formulas find the month and the day within it from the day of the year |
| Rtc.DayCountShifted | Drivers/STM32F1xx_HAL_Driver/Src/stm32f1xx_hal_rtc.c:658-674 | the day count of a date, shifted as the read side shifts it, is its March-based year and day within that year |
| Rtc.DateRoundTrip | Drivers/STM32F1xx_HAL_Driver/Src/stm32f1xx_hal_rtc.c:709-745 | reading the date back from the day count of any date of 2000 to 2099 gives that date and its Zeller week day |
| Rtc.MonthInYear | Drivers/STM32F1xx_HAL_Driver/Src/stm32f1xx_hal_rtc.c:733-742 | months 13 and 14 become January and February of the next year, the others are shifted back by one |
| Rtc.ShiftedYear | Drivers/STM32F1xx_HAL_Driver/Src/stm32f1xx_hal_rtc.c:727-728 | the read side finds the March-based year and day again |
| Rtc.WeekDayOfDayCount | Drivers/STM32F1xx_HAL_Driver/Src/stm32f1xx_hal_rtc.c:1005-1016 | Zeller's week day is the day count plus 4 modulo 7 (1 January 1970 was a Thursday) |
| Rtc.ZellerDayCount | Drivers/STM32F1xx_HAL_Driver/Src/stm32f1xx_hal_rtc.c:1005-1016 | Zeller's congruence and the day count differ by whole weeks |
| Rtc.SameWeekDay | Drivers/STM32F1xx_HAL_Driver/Src/stm32f1xx_hal_rtc.c:1005-1016 | day numbers a whole number of weeks apart share a week day |
| Rtc.SetDateKeepsTime | Drivers/STM32F1xx_HAL_Driver/Src/stm32f1xx_hal_rtc.c:658-677 | setting a date of 2000 to 2099 keeps the time of day and sets the day to the date's day count |
| Rtc.SetDateThenGetDate | Drivers/STM32F1xx_HAL_Driver/Src/stm32f1xx_hal_rtc.c:616-755 | the date read back after setting a date of 2000 to 2099 is that date, on the week day of its day count |
| Rtc.WriteTimeCounter | Drivers/STM32F1xx_HAL_Driver/Src/stm32f1xx_hal_rtc.c:883-907 | the counter is written when initialisation mode was entered; OK only when it was also left; nothing else changes |
| Rtc.SetTime | Drivers/STM32F1xx_HAL_Driver/Src/stm32f1xx_hal_rtc.c:487-553 | a null handle or time is an error, a locked handle busy; otherwise the counter keeps its day and takes the new time, OK leaving the state ready with the flags cleared, the lock released either way |
| Rtc.NewTimeCounter | Drivers/STM32F1xx_HAL_Driver/Src/stm32f1xx_hal_rtc.c:506-530 | the counter value computed is the old day plus the new time of day, in 32 bits |
| Rtc.SetTimeLocked | Drivers/STM32F1xx_HAL_Driver/Src/stm32f1xx_hal_rtc.c:502-552 | the locked body writes the new counter when initialisation mode was entered, and reports OK and ready or error and the error state |
| Rtc.GetTime | Drivers/STM32F1xx_HAL_Driver/Src/stm32f1xx_hal_rtc.c:566-603 | a null handle or time, or an overflowed counter, is an error with nothing written; otherwise the time of the counter in the requested format |
| Rtc.SetDate | Drivers/STM32F1xx_HAL_Driver/Src/stm32f1xx_hal_rtc.c:616-696 | a null handle or date is an error, a locked handle busy; otherwise the pending date is stored with January and February as months 13 and 14, and the counter keeps its time and takes the date's days |
| Rtc.SetDateLocked | Drivers/STM32F1xx_HAL_Driver/Src/stm32f1xx_hal_rtc.c:630-695 | the locked body stores the pending date and writes the new counter when initialisation mode was entered, and reports OK and ready or error and the error state |
| Rtc.GetDate | Drivers/STM32F1xx_HAL_Driver/Src/stm32f1xx_hal_rtc.c:709-755 | a null handle or date is an error with nothing written; otherwise the date of the counter's day number in the requested format, with its week day |
| Rtc.ToBcd | Drivers/STM32F1xx_HAL_Driver/Src/stm32f1xx_hal_rtc.c:966-978 | `RTC_ByteToBcd2` with its `uint8_t` tens nibble; `BcdRoundTrip` and `ByteToBcd2` state what it encodes |
| Rtc.DayCount | Drivers/STM32F1xx_HAL_Driver/Src/stm32f1xx_hal_rtc.c:660-674 | the day number `HAL_RTC_SetDate` computes; `DayCountRange` and `DateRoundTrip` state its range and inverse |
| Rtc.DateOf | Drivers/STM32F1xx_HAL_Driver/Src/stm32f1xx_hal_rtc.c:723-745 | the date `HAL_RTC_GetDate` reads from a day number; `DateRoundTrip` states that it inverts `DayCount` |
| Rtc.CounterWithTime | Drivers/STM32F1xx_HAL_Driver/Src/stm32f1xx_hal_rtc.c:506-518 | the counter `HAL_RTC_SetTime` writes; `SetTimeThenGetTime` states that it keeps the day and reads back as the time set |
| Rtc.CounterWithDate | Drivers/STM32F1xx_HAL_Driver/Src/stm32f1xx_hal_rtc.c:658-677 | the counter `HAL_RTC_SetDate` writes; `SetDateKeepsTime` and `SetDateThenGetDate` state that it keeps the time and reads back as the date set |
| Tft.OrDisjoint | Core/Inc/tft.h:42 | or-ing a value below 2^k with a multiple of 2^k is adding them |
| Tft.Pow2Shifts | Core/Inc/tft.h:42 | the shifts by 5 and 11 multiply by 32 and 2048 |
| Tft.FieldBounds | Core/Inc/tft.h:42 | a percentage scales to at most 31 blue, 63 green and 31 red |
| Tft.RgbSum | Core/Inc/tft.h:42 | the RGB565 word is blue plus 32 times green plus 2048 times red |
| Tft.Rgb | Core/Inc/tft.h:42 | the `RGB` macro; `RgbSum`, `RgbFields` and `RgbMonotone` state the word it builds and that each field reads back |
| Tft.RgbFields | Core/Inc/tft.h:42 | the word fits 16 bits and each colour field is read back from its own bits |
| Tft.RgbBlackAndWhite | Core/Inc/tft.h:42 | 0 % of every colour is 0x0000 and 100 % of every colour is 0xFFFF |
| Tft.RgbMonotone | Core/Inc/tft.h:42 | more of every colour never gives a smaller field or word |
| Tft.Scanned | Core/Src/tft.c:685-695 | the scan covers one glyph per character from `first` to `last` |
| Tft.ScanFont | Core/Src/tft.c:682-695 | the loop over the glyphs yields the font's top and bottom rows, the least `yOffset` and the greatest `yOffset + height` as `FontTop` and `FontBottom` define them |
| Tft.TopScanIsLeast | Core/Src/tft.c:682-695 | the scanned top is the smallest glyph `yOffset` and is reached by some glyph |
| Tft.TopScan | Core/Src/tft.c:682-695 | the top-row scan of `TFT_setFont`; `TopScanIsLeast` states that it is the least `yOffset` |
| Tft.BottomScan | Core/Src/tft.c:682-695 | the bottom-row scan of `TFT_setFont`; `BottomScanIsGreatest` states that it bounds every glyph |
| Tft.BottomScanIsGreatest | Core/Src/tft.c:682-695 | the scanned bottom bounds every glyph's bottom and is -127 or reached by some glyph |
| Tft.GlyphsWithinFontRows | Core/Src/tft.c:667-703 | every covered glyph lies between the font's top and bottom row, and the top is some glyph's |
| Tft.ValueFontMetrics | Core/Inc/font32x50.h:316-351 | the value font spans rows -49 to 1, so its height at size 1 is 51 |
| Tft.Height | Core/Src/tft.c:641-644 | the `uint8_t` product of the size and the rows from top to bottom; `GlyphHeightsFit` states that it covers every glyph |
| Tft.GlyphHeightsFit | Core/Src/tft.c:641-644 | unless the `uint8_t` product wraps, every glyph of a glyph font, at the font size, fits in the height `TFT_getFontHeight` reports for it |
| Tft.Shown | Core/Src/tft.c:534-542 | the text drawn is the first 199 characters of the formatted text, all of it when shorter |
| Tft.StrAdvanceAppend | Core/Src/tft.c:651-662 | the width of two strings joined is the sum of their widths |
| Tft.StrStep | Core/Src/tft.c:651-662 | what `TFT_getStrWidth` adds per character; `StrAdvanceAppend` and `CursorMatchesWidth` state what the sums mean |
| Tft.CursorStep | Core/Src/tft.c:560-629 | what `TFT_printf` moves the cursor by per character; `CursorMatchesWidth` states that in a glyph font it is `StrStep` and `UncoveredCharacterIgnored` that uncovered characters add nothing |
| Tft.CursorMatchesWidth | Core/Src/tft.c:548-630 | in a glyph font the cursor moves by exactly the width `TFT_getStrWidth` measures |
| Tft.UncoveredCharacterIgnored | Core/Src/tft.c:651-662 | a character outside the font's range adds neither width nor cursor movement |
| Tft.HLine | Core/Src/tft.c:267-279 | the corrected horizontal line counts its end pixel |
| Tft.VLine | Core/Src/tft.c:281-293 | the corrected vertical line counts its end pixel |
| Tft.HLineAsWritten | Core/Src/tft.c:267-279 | the horizontal line as written fills one pixel fewer than it spans |
| Tft.VLineAsWritten | Core/Src/tft.c:281-293 | the vertical line as written fills one pixel fewer than it spans |
| Tft.HLineSpan | Core/Src/tft.c:267-279 | the corrected horizontal line paints exactly the pixels of its row between both ends, inclusive |
| Tft.VLineSpan | Core/Src/tft.c:281-293 | the corrected vertical line paints exactly the pixels of its column between both ends, inclusive |
| Tft.HLineAsWrittenMissesEnd | Core/Src/tft.c:276-277 | as written the far end of a horizontal line stays unpainted while the near end is painted |
| Tft.RectIsOutline | Core/Src/tft.c:348-354 | the four corrected lines of `TFT_drawRect` paint exactly the outline of the rectangle |
| Tft.RectCornerMissedAsWritten | Core/Src/tft.c:348-354 | as written the bottom-right corner of a rectangle stays unpainted |
| Tft.MulLe | Core/Src/tft.c:356-362 | multiplying by a non-negative count keeps the order |
| Tft.FillRectIsBox | Core/Src/tft.c:356-362 | on screen `TFT_fillRect` paints exactly the pixels of the box, corners included |
| Tft.RectFill | Core/Src/tft.c:356-362 | the one window and count of `TFT_fillRect`; `FillRectIsBox` states that on screen it paints exactly the box |
| Tft.Plot | Core/Src/tft.c:303-343 | one pixel per point of the path |
| Tft.PlotAt | Core/Src/tft.c:303-343 | fill k of the plot is the pixel at point k |
| Tft.PlotDraws | Core/Src/tft.c:303-343 | every point of the path is drawn |
| Tft.StepsExtend | Core/Src/tft.c:303-343 | a path of line steps extended by a step stays one |
| Tft.TracksStart | Core/Src/tft.c:329 | the error term starts at minus half the major distance, within its bounds |
| Tft.TracksStep | Core/Src/tft.c:335-341 | each step keeps the error term between minus the major distance and 0, stepping the minor axis exactly when it turns non-negative |
| Tft.MinorSteps | Core/Src/tft.c:303-343 | the minor axis never moves more than its distance and has moved exactly that far when the major axis ends |
| Tft.DecodeEntries | Core/Src/tft.c:735-753 | before the end marker an entry of 0x200 or more is a delay, one of 0x100 or more a command, anything smaller a data byte |
| Tft.InitOp | Core/Src/tft.c:735-753 | how one table entry is read; `DecodeEntries` states the three kinds of entry |
| Tft.Decode | Core/Src/tft.c:735-753 | the table read up to its end marker; `DecodeEntries` and `DecodeStopsAtEnd` state what is sent |
| Tft.DecodeStopsAtEnd | Core/Src/tft.c:735-753 | nothing after the end marker is sent |
| Tft.RegisterWrite | Core/Src/tft.c:220-231 | the corrected write sends one command and one byte per parameter |
| Tft.RegisterWriteAsWritten | Core/Src/tft.c:220-231 | the write as written also sends one transfer per parameter |
| Tft.RegisterParamsAreData | Core/Src/tft.c:220-231 | corrected, the register goes as a command and every parameter as data |
| Tft.RegisterParamsAsWrittenAreCommands | Core/Src/tft.c:227 | as written the parameters go with the register-select line low, as commands |
| Tft.RegisterWithoutParams | Core/Src/tft.c:220-231 | a register without parameters is written the same both ways |
| Tft.RoundRectShape | Core/Src/tft.c:364-377 | with the corrected lines of the tft.c:267-293 Findings row, a drawn rounded rectangle stays within its box, leaves the four corners out and paints the straight edges between them |
| Tft.FillRows | Core/Src/tft.c:385-401 | two lines per row pair |
| Tft.FillRowsAt | Core/Src/tft.c:385-401 | lines 2i and 2i+1 of the fill are the two lines of row pair i |
| Tft.FillRoundRectRows | Core/Src/tft.c:379-403 | with the corrected lines of the tft.c:267-293 Findings row, every row of the box is painted at the column 2 in from either side |
| Tft.FillRoundRectAsWrittenLopsided | Core/Src/tft.c:379-403 | as written the top row of a filled rounded rectangle reaches its left end and misses its right one |
| Tft.Display.constructor | Core/Src/tft.c:138-146 | the statics start white on black at the origin, size 1, no font, backlight off |
| Tft.Display.FontFor | Core/Src/tft.c:669-675 | any font number other than the 16x24 and 32x50 ones selects the 10x16 font |
| Tft.Display.FontHeight | Core/Src/tft.c:641-644 | the reported height is at least the font size and, once a glyph font is set, covers every glyph at the font size, unless the `uint8_t` product wraps |
| Tft.Display.SetFont | Core/Src/tft.c:667-703 | the chosen font is current, its scanned top and bottom rows stored, the size reset to 1, nothing else changed |
| Tft.Display.GetStrWidth | Core/Src/tft.c:646-665 | the width is the font size times the advances of the characters before the terminator |
| Tft.Display.Print | Core/Src/tft.c:526-634 | returns the formatted length and moves the cursor right by size times the advance of each shown character, in 16 bits, nothing else changed |
| Tft.Display.DrawLine | Core/Src/tft.c:295-346 | a horizontal or vertical line becomes one fill with the corrected length of the tft.c:267-293 Findings row, any other a pixel path from end to end; both ends are drawn |
| Tft.Display.FlatLine | Core/Src/tft.c:327-343 | the pixels of a flat line form a line path from end to end |
| Tft.Display.SteepLine | Core/Src/tft.c:310-326 | the pixels of a steep line form a line path from end to end |
| Tft.FlatPixels | Core/Src/tft.c:327-343 | the flat pixel loop plots a line path from end to end |
| Tft.SteepPixels | Core/Src/tft.c:310-326 | the steep pixel loop plots a line path from end to end |
| Tft.Display.DrawRect | Core/Src/tft.c:348-354 | the four corrected lines of the outline are drawn, nothing else changed |
| Tft.Display.FillRect | Core/Src/tft.c:356-362 | one fill of the box is drawn, nothing else changed |
| Tft.Display.DrawRoundRect | Core/Src/tft.c:364-377 | a box wider and taller than 4 gets its rounded outline; a smaller one nothing |
| Tft.Display.FillRoundRect | Core/Src/tft.c:379-403 | a box wider and taller than 4 gets its row pairs filled; a smaller one nothing |
| Tft.Display.Init | Core/Src/tft.c:715-759 | a delay of 60000 and then the decoded initialisation table go out, and the backlight is on |
| Tft.Display.SendTable | Core/Src/tft.c:735-753 | the table loop sends the decoded entries up to the end marker |
| Tft.Display.SetState | Core/Src/tft.c:238-241 | display on or off is the register write of 0x29 or 0x28 |
| Tft.Display.SetBacklight | Core/Src/tft.c:233-236 | the backlight takes the requested state, nothing else changed |
| Tft.Display.SetXPos | Core/Src/tft.c:200-203 | the cursor column is set, nothing else changed |
| Tft.Display.SetYPos | Core/Src/tft.c:205-208 | the cursor row is set, nothing else changed |
| Tft.Display.SetFontSize | Core/Src/tft.c:636-639 | the font size is set, nothing else changed |
| Tft.Display.SetBackGround | Core/Src/tft.c:243-246 | the background colour is set, nothing else changed |
| Tft.Display.SetForeGround | Core/Src/tft.c:248-251 | the foreground colour is set, nothing else changed |
| Tft.CursorStepMod | Core/Src/tft.c:629 | moving the 16-bit cursor step by step is moving it by the sum |
| Tft.PrintEndsAtWidth | Core/Src/tft.c:629 | text of at most 199 characters placed by its measured width ends exactly that far right, in 16 bits |

## Left out

- The bit-banged SPI and GPIO of `dmm.c` (`DMM_SendCmdSPI`, `DMM_GetCmdSPI`, the delays, `DMM_Init`) are hardware I/O. Each register read is one transaction of the read oracle, and each write updates the modelled register image.
- Dmm.Meter.StatusCapModeII: the unbounded `for(;;)` busy-wait for the capacitance result is modelled as a single poll of the ready flag that yields NaN while the chip is not ready. A loop with no bound cannot be stated without a fuel argument.
- Capacitance Read Mode I is marked unfinished in the source. It is modelled as written: the counter read, the calibration, the CTA preset and the value.
- Calib.ComputeAdd, Calib.Coefficients: compute the offsets of the calib.c:205 and calib.c:207-211 Findings rows as corrected, and the calibrator stores these. `Calib.ComputeAddAsWritten` and `Calib.CoefficientsAsWritten` are the formulas as written.
- Calib.DCCalibrationExact: proved of the corrected DC offset `-msZero * Mult`. As written the offset is `-msZero * (1 + Mult)`. `Calib.AsWrittenDCZeroReadsNegated` and `Calib.AsWrittenDCOffsetExample` state what that gives: the zero point reads minus its raw reading.
- Calib.TwoPointCalibrationExact: proved of the corrected two-point offset `zeroRef - msZero * Mult`. As written the offset is `(zeroRef - msZero) * (1 + Mult)`. `Calib.AsWrittenTwoPointShifted` states what that gives: every input reads shifted by `zeroRef / g - msZero`.
- IEEE-754 rounding is not modelled.
  - Doubles and floats are reals plus the NaN and infinity tags. That covers the `float` casts of `calib.c`, signed zero and the double-to-integer truncations of the value formatting.
  - `sqrt` is a parameter `sq` of the functions that use it, and lemmas that need it require it to be the non-negative square root.
- The EPROM is not modelled. The read in `CALIB_ReadAllCalibsFromEPROM` is commented out in the source. The dirty marks say what would be saved; nothing saves them.
- All drawing in `application.c` is not modelled: `DrawTime`, `DrawHeader`, `DrawFooter`, `DrawValue`, `InitTime`, the button layout of `DoMenu`, and the indicators and unit labels drawn by `SetHold`, `SetAuto` and `SetScale`. The state they display is modelled.
- The main loop's measurement and display call (`DMM_Measure`, `DrawValue`) and the UART greeting are not part of the key logic modelled in `Application.App.PollKey`.
- The UART receive callback, `Do_SCPI`, the command buffer and `print` of `scpi.c` are interrupt-driven I/O. `Scpi.Execute` takes the completed line as a parameter.
- `*RST` and `SENSe:FUNCtion` are modelled as the action they request (reset, or select a scale on a channel) together with their reply. The drawing done by `*RST` and the two-argument `SetScale(channel, scale)` they call are not part of this model, because that `SetScale` is not defined in the files modelled.
- Application.Alternate, Application.App.AlternateOf: application.c:591-592 name `SCALE_Continuity` and `SCALE_Diode`, which no header declares, so those lines do not compile as given. The model reads them as dmm.h's `SCALE_CONT` and `SCALE_DIODE`, the scales of the two modes the rotation names.
- Scpi.Dispatch: the two-argument `SetScale(channel, scale)` and `DMM_GetScale(channel)` are declared in the headers but not defined in the files modelled. The scale `DMM_GetScale` returns for each channel after the command's selection is therefore a parameter (`scales`). The model does not promise that a selection takes effect; `Scpi.FuncReplyNamesSelection` states the reply for the case where the scale read back is the one selected.
- Scpi.Execute: the entries of `kw_index` and `ch_index` that a one-element path does not write hold whatever an earlier command or the stack left there. They are parameters (`staleKw`, `staleCh`) rather than a fixed value.
- Scpi.Decimal: `atoi` overflow on channel numbers of more than nine digits is not modelled; the value is the unbounded decimal value.
- Scpi.ParseNodeUnparse: the parse/print round trip is proved one path element at a time. The whole-path round trip follows from `PathAdvance` but is not stated as one lemma.
- Scpi.VoltDcBeforeVolt: states only that `VOLT DC` resolves no later than `VOLTage DC`, not that it resolves to it exactly.
- The SCPI enum is taken in the order of the corrected table, with `DBM` before `DB`. The source's enum lists `SCPI_DB` first.
- The RTC's hardware sequencing is not modelled.
  - `HAL_RTC_Init`, `HAL_RTC_DeInit`, `HAL_RTC_WaitForSynchro` and the alarm functions are out of scope.
  - Entering and leaving initialisation mode are register polls with tick timeouts. Their outcomes are the parameters `entered` and `exited`.
- `RTC_ReadTimeCounter` is modelled as the counter field. Its two-half read is not modelled: as written, when the high half changes during the read it combines the first high half with the re-read low half.
- `__HAL_LOCK` is defined in `stm32f1xx_hal_def.h`, which is not part of this model. Its effect is modelled as "busy and unchanged when already locked, otherwise locked".
- `assert_param` checks of the RTC fields compile to nothing in this firmware and are not modelled.
- Rtc.DateRoundTrip, Rtc.SetDateThenGetDate: proved for the dates of 2000 to 2099, the range the `uint8_t` year holds. For other counter values `HAL_RTC_GetDate` is modelled but nothing is proved about it.
- The keypad's GPIO configuration is kept as a per-pin mode and level. The pressed keys are an oracle, and electrical timing is not modelled.
- The circle functions (`TFT_drawCircle`, `TFT_fillCircle`) and `drawButtonFrame` of `tft.c` are not modelled.
- The bus plumbing of `tft.c` is not modelled.
  - `transfer`, `startWrite`, `endWrite`, `setXY`, the GPIO setup of `TFT_Init` and the 50-cycle delays after each table byte are left out.
  - So is the missing `endWrite` after a diagonal line.
  - A fill is kept as its window and pixel count, with the coordinates as `int` rather than wrapped to the `uint16_t` of `setXY`.
- Tft.Display.Print: the formatted text is a parameter, because `vsnprintf` is not modelled. The glyph pixel loop is not modelled either; only the cursor and the return value are.
- Tft.Display.GetStrWidth: the width is unbounded, where the source's `size_t` would wrap. That needs a string far longer than any the firmware draws.
- Tft.Display.SetFont: fonts whose `last` character is 255 are excluded by `ValidFont`. For them the `uint8_t` scan loop of `TFT_setFont` never ends.
- The two FreeSans fonts are constructor parameters, because their glyph tables are not part of this model. The value font `font32x50` is a constant.
- `TFT_getXPos` and `TFT_getYPos` return the `Display` fields `xpos` and `ypos` and are not modelled separately.
- Calling `TFT_printf` or `TFT_getStrWidth` before any `TFT_setFont` reads through a null font. The model requires a font to be set.

## Findings

| source | as written | input that shows it | evidently intended | confidence | as-written member | corrected member |
|---|---|---|---|---|---|---|
| Core/Src/dmm.c:330-331 | `DMM_SetScale` stores R37 = 60h at `curSts.r[0x17]`, one past the 23-byte array `r` (R20..R36) | any valid `DMM_SetScale` call | a byte of its own for R37, outside the register image | high, not executed | Dmm.R37SlotOutsideImage | Dmm.Meter.SetScale |
| Core/Src/calib.c:396-410 | with the early-measurement flag set, `partCalib.DmmPartCalib[idxScale]` is read before the index check has been looked at | `CALIB_CalibOnPositive(ref, &v, 1)` with no scale selected (index -1) | refuse the call before reading, as the other paths do | high, not executed | Calib.EarlyReadUnchecked | Calib.Calibrator.CalibOnReference |
| Core/Src/calib.c:205 | the DC offset is `-msZero * (1 + Mult)` | unit gain, 1 mV offset, calibrated on 0, +1 V and -1 V: the zero point then reads -1 mV | `-msZero * Mult`, so that the zero point reads 0 | medium, not executed | Calib.AsWrittenDCOffsetExample | Calib.DCZeroReadsZero |
| Core/Src/calib.c:207-211 | the two-point offset of resistance, continuity and diode scales is `(zeroRef - msZero) * (1 + Mult)` | the 500 Ohm scale with unit gain and leads reading 10 mOhm low, calibrated on the 50 mOhm zero reference and on 100 Ohm: the zero point then reads 60 mOhm | `zeroRef - msZero * Mult`, so that the zero point reads its reference | medium, not executed | Calib.AsWrittenTwoPointOffsetExample | Calib.TwoPointZeroReadsReference |
| Core/Src/application.c:120-181 | each initialiser puts the menu number in `state` and 1 in `id`, so `DoMenu(0)` (reload the current menu) always loads menu index 0 | any reload while the current menu is not the voltage menu, e.g. after RANGE in the current menu | `state` 1 and `id` the menu's own 1-based number, so that a reload keeps the current menu | high, not executed | Application.AsWrittenReloadLoadsVoltage | Application.MenuTargetMeaning |
| Core/Src/application.c:526 | `DoMenu` ends with `SetAuto(-1)`, which toggles AUTO after `SetScale` has set it | the RANGE key: AUTO ends up off; UP and DOWN: AUTO ends up on | AUTO as the `SetScale` switch set it | high, not executed | Application.AsWrittenRangeKeyClearsAuto | Application.RangeKeySetsAuto |
| Core/Src/scpi.c:55-58 | the commas after "SHOW" and "SCALar" are missing, so the table has 45 entries for an enum of 47 | `SCPI_Short(SCPI_SHOW)` gives the short form of "SHOWTHREshold"; `SCPI_Match` reads past the table | one keyword per enum member | high, not executed | Scpi.TableShortAsWritten | Scpi.TableMatchesEnum |
| Core/Src/scpi.c:49 | four-wire resistance is spelt `FourwireRESistance`, whose optional letters come first | the command `SENS:FUNC FRES` does not match it | a keyword whose short form is `FRES` | medium, not executed | Scpi.FresShortFormAsWritten | Scpi.FresShortFormAccepted |
| Core/Src/scpi.c:62-63 | `DB` precedes `DBM` in the table, and a match needs only the keyword consumed | the command `DBM` resolves to `DB` | `DBM` listed before `DB` | medium, not executed | Scpi.DbmShadowedAsWritten | Scpi.DbmBeforeDb |
| Core/Src/tft.c:267-293 | `drawHLine`/`drawVLine` open a window of `l + 1` pixels but send `l` | `TFT_drawRect(0, 0, 10, 10)` leaves the corner (10, 10) unpainted | send `l + 1` pixels | high, not executed | Tft.RectCornerMissedAsWritten | Tft.RectIsOutline |
| Core/Src/tft.c:227 | the register-select line is set low again before the parameters, although the comment says high | any `TFT_setRegister` with parameters: they are sent as commands | parameters sent as data (select line high) | high, not executed | Tft.RegisterParamsAsWrittenAreCommands | Tft.RegisterParamsAreData |
