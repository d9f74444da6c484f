# Neon Wave Arcade — a Dafny model of the visualizer core

Neon Wave Arcade is a browser audio visualizer. An audio provider feeds one analyser from
either a decoded file or the microphone, and publishes the frequency and waveform buffers
it fills. A settings store holds the current theme, colours, intensity, speed and
sensitivity. A canvas host picks one of six drawing engines by theme. Each engine keeps
its own state across animation frames: smoothed band levels, bar heights, a star pool, a
waveform history, a list of fireworks. Around them sit a mini player, an upload handler,
an account store, and a page that saves, deletes and loads custom themes.

This project models that core in Dafny. There is one module per source file, plus three
shared ones:

- `Wrappers` holds an `Option` type.
- `Spectrum` holds byte buffers, band levels and the smoothing step `v += (t - v) * k`.
- `Text` holds decimal and hexadecimal conversions and ASCII case mapping.

The modules follow the code's own form:

- Pure computations are functions with lemmas about them.
- State that the code keeps in React refs or state hooks is a class. Its methods change
  exactly what the frame or handler changes, and are proved against specification
  functions.
- Loops stay loops, with their invariants. Two examples are the retro equalizer's in-place
  bar update over an `array` and the retry loop of `randomizeTheme`.

Everything that is random or comes from the browser becomes an explicit parameter with its
documented range. This covers each `Math.random()` draw, `Date.now()`, the sines and
cosines of the drawing geometry, and the size of a measured container.

Real numbers stand in for JavaScript numbers. JavaScript's `%` and `Math.trunc` are
written out where the sign matters. A theme id is kept as a string, so that the fallback
branches of the dispatch and of the preview switch can be reached.

The pulse-mirror beat envelope uses gain 7, decay 0.88 and threshold 0.1 in
`src/components/visualizers/Sonosoidale.tsx:78-82`.

## Model

| member | source | states |
|---|---|---|
| Audio.Disconnect | src/contexts/AudioContext.tsx:75-77 | disconnecting a node leaves exactly the other inputs of the analyser, and never more of them |
| Audio.StopPrevious | src/contexts/AudioContext.tsx:67-77 | "stop any existing audio": element paused, stream tracks stopped, and from a valid state nothing feeds the analyser any more; published status and node ref untouched |
| Audio.ConnectFile | src/contexts/AudioContext.tsx:79-97 | a new playing element with the file as `src`, a fresh node appended to the analyser's inputs, analyser routed to the speakers, status "playing, file"; valid again when the analyser had no input |
| Audio.AfterLoadFile | src/contexts/AudioContext.tsx:63-98 | after `loadAudioFile` the fresh file node is the analyser's only input, playback is on, the source is `file`, any old stream is stopped, and validity is kept |
| Audio.ConnectMicrophone | src/contexts/AudioContext.tsx:115-126 | a live stream whose fresh node is appended to the analyser's inputs, status "playing, microphone", element and speaker routing untouched |
| Audio.AfterMicrophone | src/contexts/AudioContext.tsx:100-131 | granted: the microphone node is the only input and the status says microphone; refused: the old source is torn down but the published status keeps its old values |
| Audio.AfterStop | src/contexts/AudioContext.tsx:133-148 | `stopAudio`: not playing, no source, no stream, no node, nothing feeding the analyser, the element paused with no `src` |
| Audio.AfterPlaybackEnded | src/contexts/AudioContext.tsx:95-97 | the `onended` handler changes `isPlaying` to false and nothing else |
| Audio.StopIdempotent | src/contexts/AudioContext.tsx:133-148 | stopping twice equals stopping once |
| Audio.RefusedMicrophoneKeepsStaleStatus | src/contexts/AudioContext.tsx:104-130 | after a refused microphone request a playing file still reads "playing, file" though nothing feeds the analyser |
| Audio.AtMostOneSourceAlways | src/contexts/AudioContext.tsx:63-148 | after any sequence of loads, microphone starts, stops and end-of-playback events the analyser has at most one input and every resource is released |
| Audio.Silence | src/contexts/AudioContext.tsx:50-51 | a new byte buffer has the requested length and every byte is 0 |
| Audio.AnalyserNode.constructor | src/contexts/AudioContext.tsx:45-47 | the analyser keeps the FFT size and smoothing constant it was given |
| Audio.AudioProvider.constructor | src/contexts/AudioContext.tsx:31-40 | the provider starts with no context, no analyser, not playing and no source |
| Audio.AudioProvider.InitAudio | src/contexts/AudioContext.tsx:42-61 | first call: a fresh context and 2048-point analyser (smoothing 0.8) with two zeroed 1024-bin buffers; later calls hand back the existing pair untouched; source state never changes |
| Audio.AudioProvider.StopExisting | src/contexts/AudioContext.tsx:67-77 | the new source state is `StopPrevious` of the old one; the analyser and buffers stay |
| Audio.AudioProvider.LoadAudioFile | src/contexts/AudioContext.tsx:63-98 | the new source state is `AfterLoadFile` of the old one, over the same analyser once one exists |
| Audio.AudioProvider.PlayFile | src/contexts/AudioContext.tsx:79-97 | the new source state is `ConnectFile` of the old one, and validity is kept |
| Audio.AudioProvider.StartMicrophone | src/contexts/AudioContext.tsx:100-131 | succeeds exactly when permission is granted; the new source state is `AfterMicrophone` of the old one |
| Audio.AudioProvider.CaptureMicrophone | src/contexts/AudioContext.tsx:115-126 | the new source state is `ConnectMicrophone` of the old one, and validity is kept |
| Audio.AudioProvider.StopAudio | src/contexts/AudioContext.tsx:133-148 | the new source state is `AfterStop` of the old one |
| Audio.AudioProvider.OnEnded | src/contexts/AudioContext.tsx:95-97 | the new source state is `AfterPlaybackEnded` of the old one |
| Audio.AverageFrequency | src/contexts/AudioContext.tsx:150-155 | 0 without an analyser, otherwise a mean byte value in [0, 255] |
| Audio.BassFrequency | src/contexts/AudioContext.tsx:157-163 | 0 without an analyser, otherwise the mean of bins [0, 10), in [0, 255] |
| Audio.MidFrequency | src/contexts/AudioContext.tsx:165-171 | 0 without an analyser, otherwise the mean of bins [10, 100), in [0, 255] |
| Audio.HighFrequency | src/contexts/AudioContext.tsx:173-179 | 0 without an analyser, otherwise the mean of bins [100, 256), in [0, 255] |
| Audio.ProviderBassIsUnnormalisedBand | src/contexts/AudioContext.tsx:157-163 | the provider's bass reading is 255 times the engines' normalised bass band over the same bins |
| Audio.FullScaleBass | src/contexts/AudioContext.tsx:157-163 | ten full-scale bass bins read exactly 255 |
| Spectrum.Sum | src/contexts/AudioContext.tsx:153 | `reduce((a, b) => a + b, 0)`: the sum of the elements, 0 for an empty buffer as the reduce's initial value |
| Spectrum.SumBounds | src/components/visualizers/NeonTunnel.tsx:35 | a sum of bytes lies between 0 and 255 times the count |
| Spectrum.SumSnoc | src/components/visualizers/Sonosoidale.tsx:67-72 | adding one more byte at the end adds it to the running sum |
| Spectrum.SumConstant | src/components/visualizers/NeonTunnel.tsx:35 | a slice of equal bytes sums to that value times its length |
| Spectrum.Slice | src/contexts/AudioContext.tsx:160 | `slice(lo, hi)` clamps both ends to the length: its length is `min(hi, length) - lo` when `lo <= hi` and `lo` is inside, else 0, and it yields the elements from `lo` in order |
| Spectrum.SliceOfBytes | src/contexts/AudioContext.tsx:160 | a slice of a byte buffer holds bytes |
| Spectrum.BandLevel | src/components/visualizers/NeonTunnel.tsx:35-37 | a band level is non-negative and at most 1 when divided by at least the range's width |
| Spectrum.BandFraction | src/components/visualizers/NeonTunnel.tsx:35-37 | a sum of at most 255 per counted bin, divided by the count and by 255, is at most 1 |
| Spectrum.BandLevelFullScale | src/components/visualizers/NeonTunnel.tsx:35 | a full-scale range divided by its width gives exactly 1 |
| Spectrum.BandLevelSilent | src/components/visualizers/NeonTunnel.tsx:35 | a silent range gives 0 |
| Spectrum.Fraction | src/components/arcade/MiniPlayer.tsx:40 | `part / whole` for 0 <= part <= whole lies in [0, 1] and is 1 at the end |
| Spectrum.Mean | src/contexts/AudioContext.tsx:153-154 | the mean of a non-empty byte sequence lies in [0, 255] |
| Spectrum.Ease | src/components/visualizers/NeonTunnel.tsx:45-46 | one smoothing step with a factor in [0, 1] lands between the old value and the target, strictly closer when the factor is positive, on the target for factor 1 |
| Spectrum.Scale | src/components/visualizers/NeonTunnel.tsx:45 | a gap scaled by a factor in [0, 1] keeps its sign and does not grow, stays non-zero for a positive factor, and is the whole gap for factor 1 |
| Spectrum.EaseWithin | src/components/visualizers/NeonTunnel.tsx:45-46 | smoothing never leaves an interval that holds both the old value and the target |
| Spectrum.Amplify | src/components/visualizers/NeonTunnel.tsx:40-42 | a level in [0, 1] times a non-negative gain lies in [0, gain]; 0 stays 0 and full scale gives the gain |
| Text.DigitChar | src/components/arcade/MiniPlayer.tsx:16-17 | a value below 10 is written as a decimal digit |
| Text.DigitValue | src/components/arcade/MiniPlayer.tsx:16-17 | reading a digit gives a value below 10 that writes back as the same digit |
| Text.DecimalString | src/components/arcade/MiniPlayer.tsx:17 | `toString()` of a non-negative integer is a non-empty digit string, one digit exactly for values below 10 |
| Text.DecimalRoundTrip | src/components/arcade/MiniPlayer.tsx:17 | reading back the digits `toString()` wrote gives the number again |
| Text.IntString | src/components/arcade/MiniPlayer.tsx:17 | a negative integer is written as a minus sign before its magnitude's digits |
| Text.PadStart2 | src/components/arcade/MiniPlayer.tsx:17 | `padStart(2, '0')` leaves strings of two or more characters alone and fills shorter ones with leading zeros to length 2 |
| Text.HexValue | src/components/visualizers/ParticleExplosion.tsx:9-11 | a hexadecimal digit's value is below 16 |
| Text.HexDigitChar | src/components/visualizers/ParticleExplosion.tsx:9-11 | a value below 16 is written as a hexadecimal digit that reads back as that value |
| Text.HexPrefixLength | src/components/visualizers/ParticleExplosion.tsx:9-11 | the longest run of hexadecimal digits at the start of a string ends at a non-digit or at the end |
| Text.HexNumber | src/components/visualizers/ParticleExplosion.tsx:9-11 | the value of a run of hexadecimal digits read most significant first; one digit is below 16 and two digits are below 256 |
| Text.ParseHexInt | src/components/visualizers/ParticleExplosion.tsx:9-11 | `parseInt(s, 16)` is NaN exactly when `s` does not start with a hexadecimal digit, and the digits' value when all of `s` is digits |
| Text.ParseTwoHexDigits | src/components/visualizers/ParticleExplosion.tsx:9-11 | two hexadecimal digits parse as sixteen times the first plus the second |
| Text.HexByte | src/components/visualizers/ParticleExplosion.tsx:9-11 | a byte is written as two hexadecimal digits whose value is that byte |
| Text.FirstIndexOf | src/pages/Customizer.tsx:532 | `indexOf` finds the first occurrence of the character, or -1 exactly when there is none |
| Text.FirstIndexOfAt | src/pages/Customizer.tsx:532 | a position holding the character with none before it is what `indexOf` returns |
| Text.ReplaceFirst | src/pages/Customizer.tsx:532 | `replace` with a one-character pattern changes only the first occurrence, and nothing when there is none |
| Text.LowerOfUpper | src/pages/Dashboard.tsx:22-23 | lower-casing after upper-casing is the same as lower-casing |
| Text.UpperCase | src/pages/Customizer.tsx:532 | `toUpperCase()` maps every character and keeps the length |
| Text.LowerCase | src/pages/Dashboard.tsx:22-23 | `toLowerCase()` maps every character and keeps the length |
| Text.AsciiUpper | src/pages/Customizer.tsx:532 | a lower-case ASCII letter becomes a capital, every other character is kept, and no lower-case letter comes out |
| Text.AsciiLower | src/pages/Dashboard.tsx:23 | a capital ASCII letter becomes the lower-case letter that upper-cases back to it, every other character is kept, and no capital comes out |
| NeonTunnel.DualPulseBands | src/components/visualizers/NeonTunnel.tsx:29-42 | all three bands are 0 without an analyser and otherwise lie in [0, sensitivity] |
| NeonTunnel.FullScaleBassIsSensitivity | src/components/visualizers/NeonTunnel.tsx:35-40 | ten full-scale bass bins give a bass of exactly the sensitivity |
| NeonTunnel.RingAt | src/components/visualizers/NeonTunnel.tsx:63-64 | the ring carries its pulse and wave, and its radius swings about the base radius by at most `40 * (0.5 + smoothedMid)` for a sine in [-1, 1], landing on the base radius when the sine is 0 |
| NeonTunnel.BaseRadius | src/components/visualizers/NeonTunnel.tsx:63 | a ring's base radius is at least 40 for a non-negative smoothed bass |
| NeonTunnel.BaseRadiusIncreasing | src/components/visualizers/NeonTunnel.tsx:63 | each outer wave starts at least 35 further out |
| NeonTunnel.Candidate | src/components/visualizers/NeonTunnel.tsx:56-64 | the candidate ring for pulse `p`, wave `w` carries that pulse and wave and reads its own sine |
| NeonTunnel.VisibleRings | src/components/visualizers/NeonTunnel.tsx:56-87 | candidate rings with radius in [0, `max(width, height)`) are drawn, each with its own radius, in loop order; the first candidate below that bound with a negative radius makes `ctx.arc` throw and ends the frame, and it is reported exactly when some candidate radius is negative |
| NeonTunnel.DualPulseState.constructor | src/components/visualizers/NeonTunnel.tsx:15-17 | time and both smoothed levels start at 0 |
| NeonTunnel.DualPulseState.DrawFrame | src/components/visualizers/NeonTunnel.tsx:26-111 | time advances by `0.016 * speed`; smoothed bass and smoothed mid each ease 18% toward the new band and each stays in [0, sensitivity]; only rings inside the canvas are drawn, and the frame aborts before the next frame is scheduled exactly when some ring radius is negative |
| NeonTunnel.FirstFrameOfFullBass | src/components/visualizers/NeonTunnel.tsx:35-45 | from rest, one frame of full-scale bass at sensitivity 1 gives a smoothed bass of 0.18 |
| NeonTunnel.NegativeRadiusReachable | src/components/visualizers/NeonTunnel.tsx:35-69 | from rest, one frame with silent bass bins and full-scale mid bins at sensitivity 3 gives smoothed levels 0 and 0.54, and with a sine of -1 the first ring is negative, so the frame aborts |
| NeonTunnel.MidOnlyBands | src/components/visualizers/NeonTunnel.tsx:35-42 | silent bass bins and full-scale mid bins at sensitivity 3 give a bass of 0 and a mid of 3 |
| NeonTunnel.EaseFromRest | src/components/visualizers/NeonTunnel.tsx:45-46 | from 0, one smoothing step toward 0 stays at 0 and one toward 3 reaches 0.54 |
| NeonTunnel.InnermostRingNegative | src/components/visualizers/NeonTunnel.tsx:63-64 | with no bass, a smoothed mid of 0.54 and a sine of -1, the first ring has a negative radius |
| ParticleExplosion.ClampUnit | src/components/visualizers/ParticleExplosion.tsx:12 | the alpha is clamped into [0, 1] and left alone when already inside |
| ParticleExplosion.ChannelDigits | src/components/visualizers/ParticleExplosion.tsx:9-11 | a three-digit colour doubles digit `k`; a six-digit colour takes the pair at `2k`; a channel never has more than two digits |
| ParticleExplosion.Channel | src/components/visualizers/ParticleExplosion.tsx:9-11 | `parseInt(digits, 16)` of channel `k`: whenever it is a number it is below 256, since a channel has at most two digits |
| ParticleExplosion.Channels | src/components/visualizers/ParticleExplosion.tsx:9-12 | the colour read from the digits carries the clamped alpha |
| ParticleExplosion.HexToRgba | src/components/visualizers/ParticleExplosion.tsx:6-13 | the empty string gives white with the alpha unclamped; anything else gets its alpha clamped to [0, 1] |
| ParticleExplosion.FormatHex | src/components/visualizers/ParticleExplosion.tsx:5 | the `#rrggbb` spelling of a colour is a `#` and six characters |
| ParticleExplosion.StripLeadingHash | src/components/visualizers/ParticleExplosion.tsx:8 | removing the first `#` of `#digits` leaves the digits |
| ParticleExplosion.SixDigitChannel | src/components/visualizers/ParticleExplosion.tsx:9-11 | of six hexadecimal digits, channel `k` is the value of the pair at `2k` |
| ParticleExplosion.ThreeDigitChannel | src/components/visualizers/ParticleExplosion.tsx:9-11 | of three hexadecimal digits, channel `k` is 17 times digit `k` |
| ParticleExplosion.HashedChannels | src/components/visualizers/ParticleExplosion.tsx:7-12 | a `#` followed by digits reads its channels from the digits |
| ParticleExplosion.SixDigitsRead | src/components/visualizers/ParticleExplosion.tsx:9-12 | six digits read as their three pairs |
| ParticleExplosion.HashSixDigitsRead | src/components/visualizers/ParticleExplosion.tsx:6-13 | `#` and six digits read as their three pairs |
| ParticleExplosion.FormatHexDigits | src/components/visualizers/ParticleExplosion.tsx:5 | `#rrggbb` is a `#` and six hexadecimal digits whose pairs are the three channels |
| ParticleExplosion.HexRoundTrip | src/components/visualizers/ParticleExplosion.tsx:5-13 | `hexToRgba` of the `#rrggbb` spelling gives back the three channels, with the alpha clamped |
| ParticleExplosion.HashThreeDigitsRead | src/components/visualizers/ParticleExplosion.tsx:6-13 | `#` and three digits read as each digit doubled |
| ParticleExplosion.ShortHexDoubles | src/components/visualizers/ParticleExplosion.tsx:9-11 | `#xyz` gives channels 17x, 17y, 17z |
| ParticleExplosion.ShortHexExample | src/components/visualizers/ParticleExplosion.tsx:6-13 | `#f0a` at alpha 0.5 reads as (255, 0, 170, 0.5) |
| ParticleExplosion.BareHashIsNaN | src/components/visualizers/ParticleExplosion.tsx:8-11 | a lone `#` leaves no digits, so every channel is NaN |
| ParticleExplosion.ShockwaveBands | src/components/visualizers/ParticleExplosion.tsx:76-91 | all readings are 0 without an analyser; bass, mid and high lie in [0, sensitivity x intensity]; amplitude lies in [0, 1] and is not scaled |
| ParticleExplosion.FullScaleAmplitude | src/components/visualizers/ParticleExplosion.tsx:86 | a buffer at full scale everywhere has amplitude exactly 1 |
| ParticleExplosion.Resolution | src/components/visualizers/ParticleExplosion.tsx:70 | at least 24 contour points, and `width / 12` of them from width 288 on |
| ParticleExplosion.RingNorm | src/components/visualizers/ParticleExplosion.tsx:112 | the ring's position lies in [0, 1], 0 for the innermost and 1 for the outermost ring |
| ParticleExplosion.RingOrder | src/components/visualizers/ParticleExplosion.tsx:111-112 | rings are visited outermost first, each exactly once, with its normalised position |
| ParticleExplosion.ThreeRingNorms | src/components/visualizers/ParticleExplosion.tsx:69-112 | with three rings the positions are 1, 1/2 and 0 |
| ParticleExplosion.InitialShockwave | src/components/visualizers/ParticleExplosion.tsx:47-58 | the engine starts with 16 flat mountains at `i / 16` of the width, no pixels and no shock time |
| ParticleExplosion.MountainsSpanWidth | src/components/visualizers/ParticleExplosion.tsx:48-49 | the mountains lie inside the width, evenly one sixteenth of it apart |
| RetroEqualizer.BinIndex | src/components/visualizers/RetroEqualizer.tsx:51 | the bin bar `i` reads lies in the lower half of the buffer |
| RetroEqualizer.BinIndexBound | src/components/visualizers/RetroEqualizer.tsx:51 | `floor(i * len / 64)` for a bar below 32 is below half the length |
| RetroEqualizer.BinIndexMonotone | src/components/visualizers/RetroEqualizer.tsx:51 | later bars never read an earlier bin |
| RetroEqualizer.BarValue | src/components/visualizers/RetroEqualizer.tsx:47-53 | 0 without an analyser, otherwise in [0, sensitivity] |
| RetroEqualizer.TargetHeight | src/components/visualizers/RetroEqualizer.tsx:56 | 0 without an analyser; never negative for non-negative sensitivity, intensity and height |
| RetroEqualizer.EaseFactor | src/components/visualizers/RetroEqualizer.tsx:57 | the fall factor `0.3 * speed` is positive for a positive speed and lies in [0, 1] for speeds up to 10/3 |
| RetroEqualizer.EasedBars | src/components/visualizers/RetroEqualizer.tsx:46-57 | after a frame each of the 32 bars is its old height eased toward its own target by `0.3 * speed` |
| RetroEqualizer.EasedBarsApproachTargets | src/components/visualizers/RetroEqualizer.tsx:57 | with a factor in (0, 1] every bar moves strictly toward its target and never past it |
| RetroEqualizer.EasedBarsStayNonNegative | src/components/visualizers/RetroEqualizer.tsx:56-57 | bars never go negative for non-negative settings and a factor in [0, 1] |
| RetroEqualizer.EqualizerState.constructor | src/components/visualizers/RetroEqualizer.tsx:15 | the bar array starts empty |
| RetroEqualizer.EqualizerState.SeedBars | src/components/visualizers/RetroEqualizer.tsx:24-27 | 32 zero bars the first time, the same array afterwards |
| RetroEqualizer.EqualizerState.DrawFrame | src/components/visualizers/RetroEqualizer.tsx:46-57 | the bar array is updated in place to exactly `EasedBars` of its old contents |
| RetroEqualizer.DrawnHeight | src/components/visualizers/RetroEqualizer.tsx:59 | a bar is drawn at least 4 high and at least its own height, and at one of the two |
| RetroEqualizer.SegmentCount | src/components/visualizers/RetroEqualizer.tsx:74-75 | the fewest 8-pixel segments that cover the bar, at least one for a positive height |
| RetroEqualizer.ColourOf | src/components/visualizers/RetroEqualizer.tsx:79-85 | segment `s` of `n` is red exactly when `5s > 4n` (above 80% of the bar) and keeps the primary colour exactly when `5s <= 3n` (at most 60%); yellow in between |
| RetroEqualizer.LevelAbove | src/components/visualizers/RetroEqualizer.tsx:79-85 | the fraction `s / n` exceeds `a / b` exactly when `b * s > a * n`, which turns the 0.8 and 0.6 thresholds into integer comparisons |
| RetroEqualizer.ColourMonotone | src/components/visualizers/RetroEqualizer.tsx:77-85 | segment colours only get hotter going up a bar |
| RetroEqualizer.FractionMonotone | src/components/visualizers/RetroEqualizer.tsx:79 | a higher segment has a higher `s / numSegments` |
| RetroEqualizer.BottomSegmentPrimary | src/components/visualizers/RetroEqualizer.tsx:79-85 | the bottom segment is always the primary colour |
| RetroEqualizer.TopSegmentRed | src/components/visualizers/RetroEqualizer.tsx:79-85 | the top segment is red exactly when the bar has at least 6 segments |
| GalaxySpiral.StarColours | src/components/visualizers/GalaxySpiral.tsx:36 | there are five star colours |
| GalaxySpiral.Spread | src/components/visualizers/GalaxySpiral.tsx:39-43 | `offset + random * span` lies in [offset, offset + span), closed at the top only for a zero span |
| GalaxySpiral.ColourIndex | src/components/visualizers/GalaxySpiral.tsx:44 | `floor(random * 5)` is a valid index into the five colours |
| GalaxySpiral.MakeStar | src/components/visualizers/GalaxySpiral.tsx:38-45 | a new star has angle in [0, 2 pi), radius in [20, 20 + maxSide / 2), speed in [0.001, 0.004), size in [1, 4), brightness in [0.3, 1) and one of the five colours |
| GalaxySpiral.Advanced | src/components/visualizers/GalaxySpiral.tsx:103 | only the star's angle changes; it never decreases for non-negative speed and bass, and grows by exactly the star's speed at zero bass and speed 1 |
| GalaxySpiral.GalaxyBands | src/components/visualizers/GalaxySpiral.tsx:52-65 | all three bands are 0 without an analyser and otherwise lie in [0, sensitivity] |
| GalaxySpiral.HoleSize | src/components/visualizers/GalaxySpiral.tsx:123 | the black hole is never smaller than 40, and exactly 40 without bass |
| GalaxySpiral.GalaxyState.constructor | src/components/visualizers/GalaxySpiral.tsx:24-25 | no stars and time 0 |
| GalaxySpiral.GalaxyState.SeedStars | src/components/visualizers/GalaxySpiral.tsx:34-47 | an empty pool gets exactly 300 stars, star `i` made from draw `i`; a seeded pool is left alone |
| GalaxySpiral.GalaxyState.AdvanceStars | src/components/visualizers/GalaxySpiral.tsx:102-103 | every star is replaced in place by its advanced self; the pool keeps its size |
| GalaxySpiral.GalaxyState.DrawFrame | src/components/visualizers/GalaxySpiral.tsx:49-123 | time advances by `0.01 * speed`, every star advances with the frame's bass, and the hole size follows that bass |
| WaveformRibbon.SampleIndex | src/components/visualizers/WaveformRibbon.tsx:37 | the position sample `i` reads is inside the buffer |
| WaveformRibbon.SampleValue | src/components/visualizers/WaveformRibbon.tsx:38 | a centred sample lies in [-1, 127/128] and is 0 for the midpoint byte 128 |
| WaveformRibbon.SampledWave | src/components/visualizers/WaveformRibbon.tsx:36-39 | 128 samples, each in [-1, 127/128] |
| WaveformRibbon.SyntheticWave | src/components/visualizers/WaveformRibbon.tsx:44-46 | 128 fallback samples, none larger than 0.3 in size |
| WaveformRibbon.SampleWaveform | src/components/visualizers/WaveformRibbon.tsx:36-39 | the loop pushes exactly the sampled wave: sample `i` is the centred byte at `SampleIndex(i, length)` |
| WaveformRibbon.SyntheticWaveform | src/components/visualizers/WaveformRibbon.tsx:44-46 | the fallback loop pushes exactly the synthetic wave, bounded by 0.3 |
| WaveformRibbon.Pushed | src/components/visualizers/WaveformRibbon.tsx:52-55 | the newest frame is at the front of the history |
| WaveformRibbon.PushedBounded | src/components/visualizers/WaveformRibbon.tsx:52-55 | the history grows by one up to 30 frames and never beyond |
| WaveformRibbon.PushedShifts | src/components/visualizers/WaveformRibbon.tsx:52-55 | older frames shift back by one and only the oldest of a full history falls off |
| WaveformRibbon.RibbonLayer | src/components/visualizers/WaveformRibbon.tsx:85-89 | a layer's depth lies in [0, 1), its scale in (0.5, 1], its opacity in (0, 0.8]; the newest layer is at depth 0, full scale, opacity 0.8 |
| WaveformRibbon.LayersRecede | src/components/visualizers/WaveformRibbon.tsx:85-89 | deeper layers are strictly smaller and fainter |
| WaveformRibbon.RibbonState.constructor | src/components/visualizers/WaveformRibbon.tsx:15-16 | time 0 and an empty history |
| WaveformRibbon.RibbonState.DrawFrame | src/components/visualizers/WaveformRibbon.tsx:25-55 | time advances by `0.03 * speed`; the sampled wave (or the fallback, with bass 0) goes to the front of the history, which stays at most 30 frames of 128 samples; with audio, bass is the level of bins [0, 10) times the sensitivity, so it lies in [0, sensitivity] |
| Sonosoidale.FrameBass | src/components/visualizers/Sonosoidale.tsx:66-72 | a frame's bass lies in [0, 1] and is 0 without a spectrum |
| Sonosoidale.BassLevel | src/components/visualizers/Sonosoidale.tsx:67-72 | the bass loop, counting missing bins as 0, computes exactly the band level of the first 8 bins |
| Sonosoidale.BeatStep | src/components/visualizers/Sonosoidale.tsx:77-82 | an envelope in [0, 1] stays in [0, 0.88] after a frame; without a rise over 0.1 it only decays by 0.88 |
| Sonosoidale.BeatDecaysWithoutSpike | src/components/visualizers/Sonosoidale.tsx:78-82 | without a spike a positive envelope strictly decays and stays positive |
| Sonosoidale.BeatGrowsOnlyOnSpike | src/components/visualizers/Sonosoidale.tsx:78-82 | the envelope grows only on a frame whose bass rose by more than 0.1 |
| Sonosoidale.StrongSpikeSaturates | src/components/visualizers/Sonosoidale.tsx:79-82 | a rise of at least 1/7 caps the envelope at 1, so it reads exactly 0.88 after the decay |
| Sonosoidale.BeatAlwaysBounded | src/components/visualizers/Sonosoidale.tsx:77-83 | however the bass moves over any run of frames the envelope stays in [0, 1], and in [0, 0.88] after at least one frame |
| Sonosoidale.BeatScenario | src/components/visualizers/Sonosoidale.tsx:77-83 | bass 0.1, 0.3, 0.3 from rest gives envelopes 0, 0.88 and 0.7744 |
| Sonosoidale.SpecIndex | src/components/visualizers/Sonosoidale.tsx:88-89 | the bin bar `i` reads is inside the spectrum |
| Sonosoidale.SpecIndexUnclamped | src/components/visualizers/Sonosoidale.tsx:88-89 | for bars below 64 the `length - 1` clamp never changes the index |
| Sonosoidale.RawValue | src/components/visualizers/Sonosoidale.tsx:89 | a bar's raw value lies in [0, 1] and is 0 without a spectrum |
| Sonosoidale.BassBoost | src/components/visualizers/Sonosoidale.tsx:95 | the boost is at least 1.2 for a non-negative bass and beat |
| Sonosoidale.UpdatedBar | src/components/visualizers/Sonosoidale.tsx:86-99 | a bar keeps its frequency, its smoothed value stays in [0, 1] while eased 26% toward the raw value, and its height lands between the old height and the boosted target |
| Sonosoidale.PulseMirrorState.constructor | src/components/visualizers/Sonosoidale.tsx:28-39 | 64 bars, bar `i` for frequency `i`, every level and the three refs at 0 |
| Sonosoidale.PulseMirrorState.UpdateBars | src/components/visualizers/Sonosoidale.tsx:86-100 | every bar is updated in place to `UpdatedBar` of itself with its own bin; the state invariant is kept |
| Sonosoidale.PulseMirrorState.DrawFrame | src/components/visualizers/Sonosoidale.tsx:52-100 | the smoothed bass eases 16% toward the frame's bass, the envelope takes one beat step, the previous bass becomes the raw one, and every bar is updated in place |
| PixelFireworks.FireworkColours | src/components/visualizers/PixelFireworks.tsx:46-54 | seven colours, the theme's primary and secondary first |
| PixelFireworks.RandomIndex | src/components/visualizers/PixelFireworks.tsx:62 | a random draw picks an index inside the colour list |
| PixelFireworks.CreateFirework | src/components/visualizers/PixelFireworks.tsx:56-66 | a new firework starts unexploded and without pixels at the bottom edge, somewhere across the width, aims between 20% and 60% of the height, rises at a speed in (-12, -8], and takes one of the seven colours |
| PixelFireworks.Rate | src/components/visualizers/PixelFireworks.tsx:60-61 | a random share of a span lies in [0, span), or is 0 for an empty span |
| PixelFireworks.PixelCount | src/components/visualizers/PixelFireworks.tsx:69 | an explosion has between 30 and 59 pixels |
| PixelFireworks.NewPixel | src/components/visualizers/PixelFireworks.tsx:73-81 | a new pixel starts at the firework's position with full life, a size of 4 to 7, and the firework's colour when the draw exceeds 0.3, otherwise white |
| PixelFireworks.Burst | src/components/visualizers/PixelFireworks.tsx:69-82 | the burst holds the drawn number of pixels (30 to 59), pixel k made from draw k, each with full life and a size of 4 to 7 |
| PixelFireworks.ExplodeFirework | src/components/visualizers/PixelFireworks.tsx:68-84 | the loop appends exactly the burst to the firework's pixels, keeping the earlier ones, and marks it exploded |
| PixelFireworks.MovedPixel | src/components/visualizers/PixelFireworks.tsx:134-137 | a pixel's frame loses 0.015 of life and gains 0.15 of downward speed; its colour and size stay |
| PixelFireworks.LivePixels | src/components/visualizers/PixelFireworks.tsx:133-153 | the pixel filter never grows the list and keeps only pixels with life left |
| PixelFireworks.LivePixelsKeepSurvivors | src/components/visualizers/PixelFireworks.tsx:137-139 | every pixel with more than 0.015 of life is kept, moved |
| PixelFireworks.LivePixelsOnlyMoved | src/components/visualizers/PixelFireworks.tsx:133-139 | every kept pixel is the moved version of an old one |
| PixelFireworks.LivePixelsAllSurvive | src/components/visualizers/PixelFireworks.tsx:137-139 | when every pixel has more than 0.015 of life, none is dropped |
| PixelFireworks.LivePixelsNoneSurvive | src/components/visualizers/PixelFireworks.tsx:137-139 | when no pixel has more than 0.015 of life, the list empties |
| PixelFireworks.MovedForLife | src/components/visualizers/PixelFireworks.tsx:137 | after n frames a pixel's life has dropped by exactly 0.015 n |
| PixelFireworks.PixelLifetime | src/components/visualizers/PixelFireworks.tsx:137-139 | a fresh pixel still lives after 66 frames and is gone after 67 |
| PixelFireworks.Climbed | src/components/visualizers/PixelFireworks.tsx:118-119 | a climbing rocket changes only its height and velocity; gravity adds 0.1 to the velocity, and a rocket moving up at a non-negative speed does not sink |
| PixelFireworks.AtTop | src/components/visualizers/PixelFireworks.tsx:127 | a rocket that has not topped out is below its target and still rising; one that stopped rising has topped out |
| PixelFireworks.Step | src/components/visualizers/PixelFireworks.tsx:115-156 | a rising firework moves by its velocity times the speed, slows by 0.1, is kept, and explodes exactly when it reaches its target or stops rising; an exploded one is kept exactly when some of its pixels live, with just those pixels |
| PixelFireworks.Updated | src/components/visualizers/PixelFireworks.tsx:115-157 | the firework filter never grows the list |
| PixelFireworks.RisingKept | src/components/visualizers/PixelFireworks.tsx:116-130 | no firework that has not yet exploded is dropped; its stepped self is in the new list |
| PixelFireworks.StepFirework | src/components/visualizers/PixelFireworks.tsx:115-156 | the in-place update of one firework yields the frame step |
| PixelFireworks.BurntOutDropped | src/components/visualizers/PixelFireworks.tsx:133-155 | an exploded firework whose pixels are all at their last frame is removed |
| PixelFireworks.Spawned | src/components/visualizers/PixelFireworks.tsx:108-112 | a firework is appended only on a beat or a random draw below 0.02 times the intensity, and never beyond 15; otherwise the list is unchanged |
| PixelFireworks.BeatsDebounced | src/components/visualizers/PixelFireworks.tsx:95-98 | over any run of frames, successive beats are more than 200 ms apart, the first more than 200 ms after the last recorded one |
| PixelFireworks.Snap | src/components/visualizers/PixelFireworks.tsx:142-143 | a snapped coordinate lies on the 4-pixel grid at or below the position, less than one cell away |
| PixelFireworks.FireworksState.constructor | src/components/visualizers/PixelFireworks.tsx:35-36 | the engine starts with no fireworks and a last beat at 0 |
| PixelFireworks.IsBeat | src/components/visualizers/PixelFireworks.tsx:95 | a beat comes more than 200 ms after the last one, and a bass of at most 0.7 is never a beat |
| PixelFireworks.FireworksState.DetectBeat | src/components/visualizers/PixelFireworks.tsx:90-99 | a beat happens exactly when there is a spectrum whose raw bass over bins 0-9 exceeds 0.7 more than 200 ms after the last beat; a beat records the clock and leaves the fireworks alone |
| PixelFireworks.FireworksState.Spawn | src/components/visualizers/PixelFireworks.tsx:107-112 | the list becomes the spawned list and stays within 15 fireworks |
| PixelFireworks.FireworksState.UpdateFireworks | src/components/visualizers/PixelFireworks.tsx:114-157 | the loop over the list builds exactly the filtered list of stepped fireworks |
| PixelFireworks.FireworksState.DrawFrame | src/components/visualizers/PixelFireworks.tsx:86-157 | one frame detects the beat, spawns, then updates, keeping at most 15 fireworks |
| Visualizer.ThemePatch | src/contexts/VisualizerContext.tsx:55-57 | the patch `setTheme` sends sets the theme and no other key |
| Visualizer.Merge | src/contexts/VisualizerContext.tsx:51-53 | a field present in the partial replaces the old value; every absent field keeps its old value |
| Visualizer.MergeEmpty | src/contexts/VisualizerContext.tsx:51-53 | an empty partial leaves the settings unchanged |
| Visualizer.MergeIdempotent | src/contexts/VisualizerContext.tsx:51-53 | applying the same partial twice is the same as applying it once |
| Visualizer.MergeThen | src/contexts/VisualizerContext.tsx:51-53 | two successive updates equal one update with the partials combined, the later winning |
| Visualizer.SetThemeOnlyTheme | src/contexts/VisualizerContext.tsx:55-57 | `setTheme` changes the theme and no other field |
| Visualizer.ThemesDistinct | src/contexts/VisualizerContext.tsx:59-66 | six pairwise distinct themes, the first being the default theme |
| Visualizer.IndexOf | src/contexts/VisualizerContext.tsx:69 | the first position holding the id, or -1 exactly when the list lacks it |
| Visualizer.DrawIndex | src/contexts/VisualizerContext.tsx:70 | a random draw gives an index inside the theme list |
| Visualizer.PickNewIndex | src/contexts/VisualizerContext.tsx:69-73 | the retry loop returns a valid index different from the current one, taken from the first draw that differs; every earlier draw hit the current index |
| Visualizer.VisualizerStore.constructor | src/contexts/VisualizerContext.tsx:28-36 | the store starts with the default settings |
| Visualizer.VisualizerStore.UpdateSettings | src/contexts/VisualizerContext.tsx:51-53 | the settings become the merge of the old settings with the partial |
| Visualizer.VisualizerStore.SetTheme | src/contexts/VisualizerContext.tsx:55-57 | only the theme changes, to the given one |
| Visualizer.VisualizerStore.RandomizeTheme | src/contexts/VisualizerContext.tsx:68-75 | the new theme is one of the six and differs from the old one; no other field changes |
| Canvas.SelectEngine | src/components/visualizers/VisualizerCanvas.tsx:33-48 | any id outside the six falls back to the dual-pulse-waves engine; `pixel-shockwave` selects the particle engine |
| Canvas.EngineTheme | src/components/visualizers/VisualizerCanvas.tsx:34-45 | each engine's selecting id is one of the six themes |
| Canvas.EngineReachable | src/components/visualizers/VisualizerCanvas.tsx:33-48 | every engine is selected by its own theme id |
| Canvas.ThemeSelectsOwnEngine | src/components/visualizers/VisualizerCanvas.tsx:33-45 | each of the six ids selects the engine belonging to that id, so the six ids select six different engines |
| Canvas.CanvasHost.constructor | src/components/visualizers/VisualizerCanvas.tsx:12 | the host starts at 800 by 600 |
| Canvas.CanvasHost.UpdateDimensions | src/components/visualizers/VisualizerCanvas.tsx:16-23 | a mounted container's client size becomes the dimensions; without one nothing changes |
| Canvas.CanvasHost.RenderVisualizer | src/components/visualizers/VisualizerCanvas.tsx:30-49 | the rendered engine gets exactly the current width and height, matches a listed theme, and is the fallback for any other id |
| Customizer.AvailableThemesAreThemes | src/pages/Customizer.tsx:247-254 | the page offers exactly the store's six themes, in the same order |
| Customizer.SettingsOf | src/pages/Customizer.tsx:318-326 | the settings read from a saved theme are its seven settings fields, unchanged |
| Customizer.ThemeFrom | src/pages/Customizer.tsx:293-303 | a saved theme carries the given id and name and exactly the seven fields of the settings it copies |
| Customizer.MergeFullPatch | src/pages/Customizer.tsx:317-327 | merging a theme's seven fields replaces every setting, whatever the settings were |
| Customizer.IsTrimmed | src/pages/Customizer.tsx:288 | the characters `trim()` strips; letters, digits and `-` are never among them |
| Customizer.Trim | src/pages/Customizer.tsx:288 | `trim()` never lengthens the name, and a non-empty result starts and ends with a character that is not white space |
| Customizer.TrimStart | src/pages/Customizer.tsx:288 | stripping leading white space never lengthens the name |
| Customizer.TrimEnd | src/pages/Customizer.tsx:288 | stripping trailing white space keeps a prefix of the name, and a non-empty result does not end in white space |
| Customizer.TrimStartEmpty | src/pages/Customizer.tsx:288 | stripping leading white space leaves nothing exactly when the name is blank, and otherwise leaves a non-space first character |
| Customizer.TrimEndKeepsHead | src/pages/Customizer.tsx:288 | a name starting with a non-space character keeps something after trailing white space is stripped |
| Customizer.TrimEmptyIffBlank | src/pages/Customizer.tsx:288-291 | a name trims to the empty string exactly when it is all white space, which is the case the save refuses |
| Customizer.Without | src/pages/Customizer.tsx:313 | the delete filter never lengthens the list, and every kept theme comes from the list and has another id |
| Customizer.WithoutKeepsOthers | src/pages/Customizer.tsx:313 | every theme with another id survives the delete |
| Customizer.WithoutConcat | src/pages/Customizer.tsx:313 | deleting distributes over concatenation, so survivors keep their relative order |
| Customizer.WithoutAbsent | src/pages/Customizer.tsx:313 | deleting an id no theme has leaves the list unchanged |
| Customizer.WithoutIdempotent | src/pages/Customizer.tsx:313 | deleting the same id twice is deleting it once |
| Customizer.PreviewFor | src/pages/Customizer.tsx:346-361 | the four themes with previews of their own get them; every other value, the pulse mirror and unknown ids included, gets the equalizer preview |
| Customizer.EqualizerPreviewShared | src/pages/Customizer.tsx:346-361 | the retro equalizer, the pulse mirror and an id outside the list all show the equalizer preview |
| Customizer.ThemeLabel | src/pages/Customizer.tsx:532 | the label has as many characters as the theme id |
| Customizer.UpperKeepsHyphens | src/pages/Customizer.tsx:532 | upper-casing keeps the first hyphen at the same position |
| Customizer.ThemeLabelLetters | src/pages/Customizer.tsx:532 | in the label the first hyphen, if any, becomes a space and every other character is upper-cased, later hyphens included |
| Customizer.CustomizerPage.constructor | src/pages/Customizer.tsx:274-280 | the saved list is the stored one, or empty when nothing is stored; the form is hidden, the name empty and the edited settings are the store's |
| Customizer.CustomizerPage.SaveCurrentTheme | src/pages/Customizer.tsx:287-309 | a save succeeds exactly when the trimmed name is non-empty; a refused save changes nothing; a successful one appends exactly one theme copying the edited settings under the name and clock id, clears the name and hides the form |
| Customizer.CustomizerPage.DeleteTheme | src/pages/Customizer.tsx:311-315 | the list becomes the filtered list, every theme with the id gone, the others in order; nothing else changes |
| Customizer.CustomizerPage.LoadTheme | src/pages/Customizer.tsx:317-329 | both the edited settings and the store's settings become the theme's seven fields; the saved list and the form stay |
| Dashboard.ExtensionIgnoresCase | src/pages/Dashboard.tsx:23 | the extension test ignores letter case: upper-casing a name does not change whether it is taken |
| Dashboard.ExtensionMustBeSuffix | src/pages/Dashboard.tsx:23 | the extension must end the name: `a.mp3.txt` with an unlisted MIME type is turned away |
| Dashboard.UpperCaseExtensionAccepted | src/pages/Dashboard.tsx:23 | an upper-case `.MP3` name is taken whatever its MIME type |
| Dashboard.ListedTypeAccepted | src/pages/Dashboard.tsx:22-23 | a listed MIME type is taken whatever the name |
| Dashboard.EndsWith | src/pages/Dashboard.tsx:23 | a string ending with a suffix is some head followed by the suffix; otherwise, when the suffix fits, some position in the tail differs from it |
| Dashboard.LowerCaseKeepsLowerSuffix | src/pages/Dashboard.tsx:23 | lower-casing a name keeps any suffix without capitals, so the `/i` match sees lower-case extensions unchanged |
| Dashboard.HasAudioExtension | src/pages/Dashboard.tsx:23 | a name with an audio extension has at least four characters, and a name ending in `.mp3`, `.wav`, `.ogg` or `.webm` has one |
| Dashboard.Accepted | src/pages/Dashboard.tsx:22-23 | a listed MIME type is accepted whatever the name, and an accepted file has a listed type or a name of at least four characters |
| Dashboard.Classify | src/pages/Dashboard.tsx:19-26 | no file exactly when nothing was picked; loaded exactly when a file was picked and its type is listed or its name ends with an audio extension |
| Dashboard.HandleFileUpload | src/pages/Dashboard.tsx:18-34 | a missing or rejected file leaves the provider untouched; an accepted one moves it to the loaded-file state |
| Dashboard.DashboardPage.constructor | src/pages/Dashboard.tsx:16 | the microphone flag starts lowered |
| Dashboard.DashboardPage.HandleMicrophoneStart | src/pages/Dashboard.tsx:36-46 | the flag is raised while the request runs and lowered afterwards whether permission was granted or not; the provider takes the microphone outcome |
| Auth.Public | src/contexts/AuthContext.tsx:52-56 | the published user copies the id, username and email, leaving out the password |
| Auth.HasEmail | src/contexts/AuthContext.tsx:68 | some account holds the email exactly when an account with that email is in the list |
| Auth.Matches | src/contexts/AuthContext.tsx:46 | a matching account publishes the email it was matched on |
| Auth.Registered | src/contexts/AuthContext.tsx:72-80 | registration keeps every old account in place and appends one account with the new id, username, email and password |
| Auth.FindCredentials | src/contexts/AuthContext.tsx:46 | no result exactly when no account matches both email and password; otherwise the first matching account |
| Auth.NewId | src/contexts/AuthContext.tsx:73 | a new account's id is a non-empty string of decimal digits |
| Auth.RegisterKeepsEmailsUnique | src/contexts/AuthContext.tsx:67-80 | registering an email nobody has keeps every email distinct |
| Auth.RegisterThenLogin | src/contexts/AuthContext.tsx:45-80 | right after registering, a login with the same email and password finds the new account |
| Auth.LoginFindsTheAccount | src/contexts/AuthContext.tsx:46 | with distinct emails, a login finds the one account holding that email and password |
| Auth.AuthStore.constructor | src/contexts/AuthContext.tsx:28-29 | nobody is signed in and the provider is loading |
| Auth.AuthStore.RestoreSession | src/contexts/AuthContext.tsx:31-38 | a saved session becomes the user; loading ends; storage stays |
| Auth.AuthStore.Login | src/contexts/AuthContext.tsx:40-60 | succeeds exactly when some account matches both email and password; on success the first match, without its password, becomes the user and the session; on failure nothing changes |
| Auth.AuthStore.Register | src/contexts/AuthContext.tsx:62-90 | fails exactly when the email is taken, changing nothing; otherwise appends exactly one account with the clock as its id, which becomes the user and the session without its password; distinct emails stay distinct |
| Auth.AuthStore.Logout | src/contexts/AuthContext.tsx:92-95 | nobody is signed in and the session is cleared; the accounts stay |
| MiniPlayer.Trunc | src/components/arcade/MiniPlayer.tsx:16 | the integer part rounds toward zero: the floor for non-negative values, within one below zero otherwise |
| MiniPlayer.Rem60 | src/components/arcade/MiniPlayer.tsx:16 | the remainder by 60 carries the sign of the time and lies in [0, 60) for non-negative times |
| MiniPlayer.FormatTime | src/components/arcade/MiniPlayer.tsx:13-18 | a non-finite time shows `0:00`; every label has at least three characters |
| MiniPlayer.TwoDigitSeconds | src/components/arcade/MiniPlayer.tsx:17 | a seconds value below 60 is padded to exactly two digits |
| MiniPlayer.FormatTimeShape | src/components/arcade/MiniPlayer.tsx:15-17 | for a non-negative time the label is the whole minutes, a colon and two digits for the leftover seconds in 0..59 |
| MiniPlayer.TwoDigitsValue | src/components/arcade/MiniPlayer.tsx:17 | two written digits read back as the seconds value |
| MiniPlayer.FormatTimeRoundTrip | src/components/arcade/MiniPlayer.tsx:13-18 | reading the label back, minutes times 60 plus seconds gives the time's whole seconds |
| MiniPlayer.ReadMinutesSeconds | src/components/arcade/MiniPlayer.tsx:17 | minutes and two-digit seconds read back as minutes times 60 plus seconds |
| MiniPlayer.FormatTimeExample | src/components/arcade/MiniPlayer.tsx:15-17 | 125.7 seconds shows as `2:05` |
| MiniPlayer.SkipBack | src/components/arcade/MiniPlayer.tsx:32-34 | five seconds back, never below zero |
| MiniPlayer.SkipForward | src/components/arcade/MiniPlayer.tsx:36-38 | five seconds on, never past the duration |
| MiniPlayer.SkipsStayInTrack | src/components/arcade/MiniPlayer.tsx:32-38 | from a position inside the track both skips land inside the track |
| MiniPlayer.SkipForwardThenBack | src/components/arcade/MiniPlayer.tsx:32-38 | away from both ends, skipping forward then back returns to the same position |
| MiniPlayer.ProgressPercent | src/components/arcade/MiniPlayer.tsx:40 | 0 for a non-positive duration; within [0, 100] for a position inside the track, 0 at the start and 100 at the end |
| MiniPlayer.Visible | src/components/arcade/MiniPlayer.tsx:9-11 | the player renders for a file source and renders nothing with no source or with the microphone |
| MiniPlayer.PlayPause | src/components/arcade/MiniPlayer.tsx:20-26 | the button pauses exactly when playing |
| MiniPlayer.PlayerFollowsProvider | src/components/arcade/MiniPlayer.tsx:9-26 | after loading a file the player shows with its pause control; after stopping it hides; when the track ends it shows the play control |

## Left out

- Canvas painting is not modelled: fills, strokes, gradients, shadows, composite modes, path building, the `rgba(...)`/hex strings handed to the canvas, and the mirrored bar drawing of the pulse mirror. The model keeps only these painted numbers:
  - the ring radii of the dual-pulse engine (`NeonTunnel.RingAt`, `NeonTunnel.VisibleRings`);
  - the bar heights, drawn heights, segment counts and segment colours of the equalizer (`RetroEqualizer.EasedBars`, `RetroEqualizer.DrawnHeight`, `RetroEqualizer.SegmentCount`, `RetroEqualizer.ColourOf`);
  - the depth, scale and opacity of each ribbon layer (`WaveformRibbon.RibbonLayer`);
  - the black-hole size of the galaxy (`GalaxySpiral.HoleSize`);
  - the colour channels and alpha of the particle engine's `hexToRgba` (`ParticleExplosion.HexToRgba`);
  - the bar values of the pulse mirror (`Sonosoidale.UpdatedBar`);
  - the 4-pixel grid of the fireworks (`PixelFireworks.Snap`).
- Every other paint parameter is left out. In the dual-pulse engine that is the glow and centre-circle radii, the ring line width, stroke alpha and distance factor. In the particle engine it is each contour ring's radius, twist and gradient stops. In the pulse mirror it is the drawn bar height, alpha string, centre-line height and glow radius. It also covers the galaxy's star size and the ribbon's line width. These only feed drawing calls.
- A canvas call whose failure changes behaviour is `ctx.arc` with a negative radius in the dual-pulse engine, which throws; `NeonTunnel.VisibleRings` models that abort.
- Transcendental numerics are inputs, not computed: `Math.sin`, `Math.cos` and `Math.PI`. Each sine or cosine is a parameter in [-1, 1], and `TwoPi` is the double-precision value of 2π. This removes the spiral arms, the star and ring positions, and the `warp` contours of the particle engine.
- IEEE-754 rounding, `NaN` propagation beyond the cases named below, and `Infinity` are not modelled. JavaScript numbers are reals. Floors of quotients such as `Math.floor(i / N * len)` are exact.
- The Web Audio and media objects are abstracted: `AudioContext`, `AnalyserNode` filling its buffers, `getUserMedia`, `Audio`, `URL.createObjectURL` and `resume()`. A buffer is a sequence of bytes passed in. The element, the stream and the source nodes are flags and node identities.
- The asynchronous side of `loadAudioFile` and `startMicrophone` is not modelled: the awaited promises, a rejected `play()` and the error it rethrows. A load is modelled as succeeding. The microphone's outcome is the `granted` parameter.
- Scheduling and React's lifecycle are not modelled: `requestAnimationFrame`, effect cleanup, re-renders and the window `resize` listener. One engine `DrawFrame` call is one animation frame. `UpdateDimensions` is one resize event.
- `localStorage` and `JSON.parse`/`stringify` are not modelled. The account list, the session and the saved themes are fields. A missing slot is an `Option`.
- Toasts and navigation are not modelled.
- The one-second simulated delay of `login` and `register` is not modelled.
- `parseInt` is only modelled for the hexadecimal digit strings `hexToRgba` slices out. Leading white space, a sign and a `0x` prefix are not.
- Case mapping is ASCII only, for the extension test and the theme label. Non-ASCII letters are left unchanged.
- `PixelFireworks.FireworksState.DetectBeat` reads the clock once as `now`. The source calls `Date.now()` twice, once in the test and once for the stored time.
- The fireworks engine is modelled on its own. The canvas dispatch never renders it.
- The mini player reads `currentTime`, `duration`, `playAudio` and `seekAudio`, which the audio provider does not supply. Its helpers are functions over those values, and the seek and play/pause calls are not modelled.
- `Customizer.CustomizerPage.LoadTheme`: the source passes the whole saved theme to `updateSettings`, so the store's settings object also picks up the theme's `id` and `name` keys. The model's settings record has only the seven settings fields, so those extra keys are dropped.
- The customizer's apply button, colour presets, form toggles and preview drawing are not modelled. They are input and display only.
- `ParticleExplosion.ShockwaveBands` requires a non-empty frequency buffer: the provider always allocates 1024 bins, and for an empty one the source would compute `NaN` or read past the end.
- `RetroEqualizer.BarValue` requires a non-empty frequency buffer: the provider always allocates 1024 bins, and for an empty one the source would compute `NaN` or read past the end.
- `RetroEqualizer.TargetHeight` requires a non-empty frequency buffer: the provider always allocates 1024 bins, and for an empty one the source would compute `NaN` or read past the end.
- `RetroEqualizer.EasedBars` requires a non-empty frequency buffer: the provider always allocates 1024 bins, and for an empty one the source would compute `NaN` or read past the end.
- `RetroEqualizer.EqualizerState.DrawFrame` requires a non-empty frequency buffer: the provider always allocates 1024 bins, and for an empty one the source would compute `NaN` or read past the end.
- `Sonosoidale.RawValue` requires a non-empty frequency buffer: the provider always allocates 1024 bins, and for an empty one the source would compute `NaN` or read past the end.
- `Sonosoidale.PulseMirrorState.UpdateBars` requires a non-empty frequency buffer: the provider always allocates 1024 bins, and for an empty one the source would compute `NaN` or read past the end.
- `Sonosoidale.PulseMirrorState.DrawFrame` requires a non-empty frequency buffer: the provider always allocates 1024 bins, and for an empty one the source would compute `NaN` or read past the end.
- `WaveformRibbon.SampledWave` requires a non-empty time-domain buffer: the provider always allocates 1024 bins, and for an empty one the source would compute `NaN`.
- `WaveformRibbon.SampleWaveform` requires a non-empty time-domain buffer: the provider always allocates 1024 bins, and for an empty one the source would compute `NaN`.
- `WaveformRibbon.RibbonState.DrawFrame` requires a non-empty time-domain buffer when the analyser is present, for the same reason: the provider always allocates 1024 bins, and for an empty one the source would sample `NaN`.
- `Visualizer.PickNewIndex` takes a finite run of draws that contains one giving another index.
- `Visualizer.VisualizerStore.RandomizeTheme` takes such a run too. The source's `while` loop relies on `Math.random()` to leave it eventually. That is not a property of the code.
- `MiniPlayer.FormatTimeRoundTrip` is stated for non-negative times only, which are the times a media element reports.
- `MiniPlayer.FormatTimeShape` is stated for non-negative times only, too. For a negative time the source prints a negative remainder, which the model's `FormatTime` keeps.
