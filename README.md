# Armonia-Web harmony core in Dafny

Armonia-Web checks four-part (SATB) chorale writing and analyses chords
tonally. This project models the three parts of it that decide things.
Each part is stated as Dafny functions, classes and methods, and the
properties the code promises are proved about them.

* **The voice-leading rule engine** (`harmonic_rules.py`).
  - Fourteen harmonic rules look at a pair of consecutive chords:
    - parallel fifths and octaves, direct fifths and octaves, unequal fifths;
    - leading-tone and seventh resolution;
    - voice crossing, spacing and overlap;
    - doubled leading tone and doubled seventh;
    - melodic leaps beyond the octave and omitted factors.
  - Each rule:
    - scans voices or voice pairs in a fixed order and reports the first hit;
    - passes the hit through its ordered list of contextual exceptions;
    - builds an error record with a tier, a confidence and a message ("paralelas" or "consecutivas").
  - `RulesEngine` holds the registered rules in order. It:
    - enables and disables them by name;
    - runs every enabled rule on a pair of chords;
    - formats the errors with a measure, a beat and the voices listed from the bass up.
  - The helpers it relies on are modelled too:
    - `VoiceLeadingUtils`: chord factors, motion types, interval names and scale degrees;
    - `ContextAnalyzer`: change of voicing and the V-VII pair.
* **The chord-factor model** (`chord_knowledge.py`).
  - A `Chord` records which factor (1, 3, 5, 7, 9 or '?') each voice holds.
  - It answers queries about that map:
    - voices with a factor;
    - completeness;
    - doubled and missing factors;
    - the figured bass of its type.
  - A `Progression` pairs each voice's factors across two chords.
* **The tonal analyser's decision logic** (`analizador_tonal.py`).
  - `ContextoTonal`: the key in force and its key signature.
  - The conservatory figure tables, the degree labels and the harmonic function of a degree.
  - The secondary-dominant, borrowed-chord, Neapolitan and augmented-sixth detectors.
  - The order in which `CerebroTonal.analizar_acorde` lets them override the plain translation.

**What the model takes as given.** music21's parsing, chord analysis and
roman-numeral analysis are not modelled. Their results are parameters:
- a `Pitch` is a letter, an alteration and an octave, with music21's pitch space and pitch class;
- a `Key` is a tonic name and a mode;
- `ChordFacts` holds the chord's pitches, root, quality, inversion and seventh flags;
- `Numeral` holds the roman numeral's answers.

Interval names are computed as music21's `simpleName` is. They are
undirected and reduced to one octave. The rules compare these names,
not semitone counts.

**Layout.** Each file holds one module:
- `wrappers`, `text`, `pitches` and `keys` hold the values;
- `voice_leading`, `voicing`, `context_analyzer`, `chord_knowledge` and `chord_bridge` hold the helpers and the chord model;
- `detection`, `interval_rules`, `resolution_rules`, `texture_rules`, `harmonic_rule`, `app_format` and `rules_engine` hold the rules and the engine;
- `tonal_context`, `cipher`, `sonority`, `function_detector`, `special_chords` and `tonal_brain` hold the tonal analyser.

**Modelling style.**
- Code that updates objects becomes classes whose methods state their whole new state:
  - `HarmonicRule` (its `enabled` flag and `exceptions` list);
  - `RulesEngine` (its rule list);
  - `Chord` and `Progression`;
  - `ContextoTonal` and `CerebroTonal`.
- Loops become methods proved equal to specification functions:
  - `validate_progression` and `format_errors_for_app`;
  - the factor analysis and the factor counting of `get_doubled_factors`;
  - the voice-collecting detectors;
  - the chromatic-pitch scan and `_tiene_novena`.
- The properties are proved about those functions.

## Model

| member | source | states |
|---|---|---|
| Pitches.PitchClass | harmonic_rules.py:694 | a pitch's class is in 0..11 and depends only on its spelled name, as music21's `pitchClass` |
| Pitches.TransposeName | analizador_tonal.py:405-416 | transposing a note name by an interval (`root.transpose('m2')`, `root.transpose('P4')`) moves its class by the interval's semitones, modulo 12 |
| Pitches.SpecifierOf | harmonic_rules.py:471-564 | the interval quality: perfect only for unison/fourth/fifth types with no deviation, major/minor only for the other types, augmented by the deviation |
| Pitches.NameOfSize | harmonic_rules.py:489-491 | the simple name's number is the generic size reduced to one octave (P12 -> P5) |
| Pitches.SimpleNameSymmetric | harmonic_rules.py:471-564 | the undirected simple name does not depend on which note is given first, so the interval predicates hold for either voice order |
| Pitches.SimpleNameOctaveInvariant | harmonic_rules.py:489-491 | raising the upper note by an octave leaves the simple name unchanged |
| Pitches.NameOfCompound | harmonic_rules.py:489-491 | an interval seven letters and twelve semitones wider has the same simple name |
| Pitches.PerfectFifthCharacterised | harmonic_rules.py:471-492 | `is_perfect_fifth` holds iff the letter distance is a fifth (mod 7) and the semitones are exactly 7 plus 12 per octave of letters, so a minor sixth or diminished fifth never counts |
| Pitches.OctaveCharacterised | harmonic_rules.py:547-563 | `is_octave` holds iff the letter distance is a whole number of octaves and the semitones are exactly 12 per octave |
| Keys.ModeSteps | analizador_tonal.py:374-376 | each mode's scale has seven steps, the first being the tonic |
| Keys.ScaleName | analizador_tonal.py:374-376 | scale step `i` is spelled on the letter `i` above the tonic and sounds the step's semitones above it |
| Keys.ScaleClasses | analizador_tonal.py:374-376 | `pitches_escala` lists, step by step, the class of each spelled scale note |
| Keys.DiatonicByDistance | analizador_tonal.py:378-383 | a class is in the scale iff its distance above the tonic is one of the mode's steps |
| Keys.DegreeOfName | analizador_tonal.py:511-525 | `getScaleDegreeFromPitch`: a degree 1..7 whose spelled step is exactly the note, and none when no step is spelled that way |
| Keys.DegreeOfNameIsDiatonic | analizador_tonal.py:511-525 | a note that has a degree sounds a class of the scale |
| Keys.CMajorNaturals | harmonic_rules.py:634-642 | the fallback key C major is spelled on the seven natural notes |
| VoiceLeading.FactorOfDistance | harmonic_rules.py:705-717 | the buckets: only distances 5 and 9 give '?' |
| VoiceLeading.ChordFactor | harmonic_rules.py:670-726 | `get_chord_factor` gives '1' iff the note and the root have the same class |
| VoiceLeading.ChordFactorOctaveInvariant | harmonic_rules.py:694 | the factor does not change when the note moves by octaves |
| VoiceLeading.ChordFactorByClass | harmonic_rules.py:694 | notes of the same class, in any spelling or octave, have the same factor |
| VoiceLeading.MotionOf | harmonic_rules.py:615-625 | static iff both voices stay, oblique iff exactly one stays, parallel iff both move the same way, contrary iff they move opposite ways |
| VoiceLeading.MotionSymmetric | harmonic_rules.py:592-625 | swapping the two voices does not change the motion type |
| VoiceLeading.IsLeapExamples | harmonic_rules.py:565-590 | the documented examples: C4-D4 is no leap, C4-E4 and C4-G4 are |
| VoiceLeading.DegreeOfDistance | harmonic_rules.py:648 | `degree_map` maps each distance to a degree 1..7 |
| VoiceLeading.ScaleDegreeInfo | harmonic_rules.py:632-654 | degree 1..7, the distance above the tonic modulo 12, and the leading-tone flag iff that distance is 11 |
| VoiceLeading.ScaleStepDegree | harmonic_rules.py:632-654 | every spelled scale step, in any octave, is reported as its own degree |
| VoiceLeading.DegreeFromChord | harmonic_rules.py:657-668 | "?" iff the chord has no root, else one of the mode's seven numerals |
| VoiceLeading.DegreeFromChordOfStep | harmonic_rules.py:657-668 | a root spelled as step `i` gets the `i`-th numeral of the mode's list |
| Voicing.InjectKey | harmonic_rules.py:354-358 | a chord without a key takes the context's key; a chord with one keeps it; nothing else in the chord changes |
| ContextAnalysis.VoicingChangeIrreflexive | harmonic_rules.py:150-156 | a chord is never a voicing change of itself |
| ContextAnalysis.VoicingChangeSymmetric | harmonic_rules.py:95-156 | `is_voicing_change` does not depend on the order of the two chords |
| ContextAnalysis.OctaveMoveIsVoicingChange | harmonic_rules.py:95-149 | moving one voice of a chord by octaves to a new note, with the same root, quality and inversion, is a voicing change |
| ContextAnalysis.VVIIPairCharacterised | harmonic_rules.py:188-216 | `is_V_VII_pair` holds iff the degrees are 5 and 7 in either order and one function is missing or empty or one is 'D' |
| HarmonicRules.TierValue | harmonic_rules.py:45-49 | `RuleTier.value`: 1..3, 1 exactly for CRITICAL and 3 exactly for ADVANCED |
| HarmonicRules.RuleNamesDistinct | harmonic_rules.py:2723-2757 | the fourteen registered rules have pairwise different names, so a name picks out one rule class |
| HarmonicRules.TierOf | harmonic_rules.py:1907-1915 | no rule is ADVANCED; exactly maximum distance, voice overlap, excessive melodic motion and improper omission are IMPORTANT, every other rule CRITICAL |
| HarmonicRules.DetectViolation | harmonic_rules.py:405-415 | the dispatching `_detect_violation`, with the loop-based detectors run as methods, gives what each rule's detector specifies |
| HarmonicRules.Confidence | harmonic_rules.py:1142-1166 | a rule that found something gives one of 70, 80, 85, 90, 100; the parallel, resolution, crossing and duplication rules always give 100 |
| HarmonicRules.Run | harmonic_rules.py:816-838 | the registered checks: the V-VII pair holds iff `is_V_VII_pair`, the voicing change iff `is_voicing_change`, and the diminished second fifth never holds |
| HarmonicRules.DefaultExceptions | harmonic_rules.py:816-838 | only parallel fifths and direct fifths register exceptions when built |
| HarmonicRules.ParallelFifthsExcuses | harmonic_rules.py:816-838 | parallel fifths are excused exactly by a V-VII pair or a change of voicing |
| HarmonicRules.MessageFor | harmonic_rules.py:382-391 | on parallel motion, including a finding with no motion, the rule's own short message is kept |
| HarmonicRules.ConsecutiveMessage | harmonic_rules.py:387-391 | on any other motion "<noun> paralelas" becomes "<noun> consecutivas" |
| HarmonicRules.ErrorRecord | harmonic_rules.py:393-403 | the record carries the rule's name and tier value, the confidence, the finding's chord index and voices, and the motion, parallel by default |
| HarmonicRules.Validation | harmonic_rules.py:348-403 | nothing when disabled; a record iff the detector, run on the chords with the context's key added, finds something no check excuses; the record copies rule, tier, chord index, voices and motion |
| HarmonicRules.NonHoldingCheckIsInert | harmonic_rules.py:367-376 | adding a check that returns false or raises never changes the outcome |
| HarmonicRules.HoldingCheckSilences | harmonic_rules.py:367-372 | a check that returns true silences the rule, wherever it stands in the list |
| HarmonicRules.ExceptionsOnlySuppress | harmonic_rules.py:366-378 | whatever is reported with exceptions is reported identically without them |
| HarmonicRules.CheckExceptions | harmonic_rules.py:367-376 | the loop stops at the first check that returns true and passes over raising ones: it answers exactly whether some check holds |
| HarmonicRules.HarmonicRule.constructor | harmonic_rules.py:278-302 | a new rule is enabled and holds exactly the exceptions its class registers |
| HarmonicRules.HarmonicRule.AddException | harmonic_rules.py:304-322 | appends the named check to the exceptions and changes nothing else |
| HarmonicRules.HarmonicRule.Validate | harmonic_rules.py:324-403 | returns exactly `Validation` of the rule's current state |
| RuleCore.FirstHit | harmonic_rules.py:867-892 | the first-match scan: the index found satisfies the test and none before it does; none is found iff no entry satisfies it |
| RuleCore.FirstHitIsFirst | harmonic_rules.py:867-892 | any entry that satisfies the test with none before it is what the scan returns |
| RuleCore.Filter | harmonic_rules.py:2149-2198 | the kept entries are exactly the entries that pass the test |
| RuleCore.FilterKeepsOrder | harmonic_rules.py:2149-2198 | filtering keeps the entries' order |
| RuleCore.PairConfidence | harmonic_rules.py:1150-1166 | one of 70, 80, 90, 100, and 100 exactly when the pair is bass and soprano |
| RuleCore.PairConfidenceBands | harmonic_rules.py:1159-1166 | for a pair of voices: 90 iff the bass without the soprano, 80 iff the soprano without the bass, 70 iff neither |
| ChordBridge.PartNotes | harmonic_rules.py:757-762 | the voices handed to `Chord` are exactly the present S, A, T, B notes |
| ChordBridge.DictToChordSafe | harmonic_rules.py:728-784 | no object without a root or without voices; otherwise a fresh valid `Chord` with those voices, the chord's root, quality, key and inversion (default 0), and its derived factors and type |
| IntervalRules.ParallelFifths | harmonic_rules.py:840-892 | nothing iff no pair, in the order S-A, S-T, S-B, A-T, A-B, T-B, has all four notes, a fifth (P5 or A5) in both chords and parallel or contrary motion; otherwise the first such pair, with its motion |
| IntervalRules.ParallelOctaves | harmonic_rules.py:944-993 | the same first-match contract with P8/P1 in both chords |
| IntervalRules.ParallelReportsMoveBothVoices | harmonic_rules.py:882-889 | a reported parallel fifth or octave always carries parallel or contrary motion, never oblique or static |
| IntervalRules.DirectFifths | harmonic_rules.py:1048-1140 | nothing iff no pair arrives at a P5 in parallel motion from neither a P5 nor a d5 without an allowance (a soprano step against a bass move of 3..7 semitones for S-B; exactly one voice by step otherwise); otherwise the first such pair |
| IntervalRules.DirectOctaves | harmonic_rules.py:1199-1289 | nothing iff no pair arrives at an octave in parallel motion from a non-octave without an allowance (soprano up 1 and bass up 5 for S-B; exactly one voice by step otherwise); otherwise the first such pair |
| IntervalRules.DirectConfidence | harmonic_rules.py:1291-1310 | 0 exactly without a finding, else the band of the reported pair |
| IntervalRules.DirectAndParallelOctavesExclusive | harmonic_rules.py:1199-1289 | a pair never has direct and parallel octaves at once |
| IntervalRules.DirectAndParallelFifthsOverlap | harmonic_rules.py:1081-1094 | a pair with both direct and parallel fifths starts at an augmented fifth |
| IntervalRules.UnequalFifths | harmonic_rules.py:1342-1392 | nothing iff no pair with the bass goes from d5 to P5 outside parallel tenths between bass and soprano; otherwise the first such pair |
| IntervalRules.ParallelTenthsSilenceUnequalFifths | harmonic_rules.py:1394-1433 | parallel tenths between bass and soprano silence the rule whichever pair holds the fifths |
| IntervalRules.UnequalFifthsInvolveBass | harmonic_rules.py:1342-1392 | a reported pair always starts with the bass |
| IntervalRules.UnequalAndDirectFifthsExclusive | harmonic_rules.py:1092-1094 | no pair has unequal and direct fifths at once |
| ResolutionRules.LeadingToneKindOf | harmonic_rules.py:1495-1564 | a note is a key leading tone exactly when it is the key's leading tone and the chord's numeral is V or vii; such a note lies a semitone below the tonic; a local one is the major third above the first chord's root, with the root moving a P4 or P5 to the second chord's root and a degree label that is secondary ('/') or not diatonic |
| ResolutionRules.LeadingToneResolution | harmonic_rules.py:1481-1683 | nothing iff no voice, in the record's order, holds an unresolved, unexcused leading tone; otherwise the first such voice, on chord 0 |
| ResolutionRules.ResolvedLeadingToneNotReported | harmonic_rules.py:1586-1598 | a voice rising a semitone or landing on the tonic degree is never the reported one |
| ResolutionRules.LeadingToneSilenced | harmonic_rules.py:1574-1619 | a V-VII pair or a first chord on III never reports |
| ResolutionRules.DeceptiveBassExample | harmonic_rules.py:1629-1642 | in C major, a bass B3 under G going to A3 under A minor is not reported |
| ResolutionRules.BIsKeyLeadingToneOfV | harmonic_rules.py:1499-1516 | B in a chord on G is C major's leading tone |
| ResolutionRules.ADeceptiveBass | harmonic_rules.py:1629-1642 | in C major a bass reaching A under an A root is the deceptive-bass allowance |
| ResolutionRules.CMajorNumeral | harmonic_rules.py:657-668 | in C major a natural root on letter `i` gets the `i`-th major numeral |
| ResolutionRules.ObjectRecord | harmonic_rules.py:1730-1734 | the record rebuilt from the chord object has the inversion filled with 0 when missing, and is the chord otherwise |
| ResolutionRules.SeventhLegacyNeverReports | harmonic_rules.py:1761-1788 | the legacy path runs only for chords without root or voices, and then reports nothing |
| ResolutionRules.SeventhResolution | harmonic_rules.py:1711-1759 | nothing on a change of voicing; a report names one S/A/T/B voice on chord 0 that holds the seventh above the root and does not fall by one or two semitones |
| ResolutionRules.DetectSeventhResolution | harmonic_rules.py:1711-1759 | the loop over the voices holding the seventh gives `SeventhResolution` |
| ResolutionRules.FirstUnresolvedSeventh | harmonic_rules.py:1743-1759 | the loop returns the first seventh voice that does not resolve, or nothing |
| ResolutionRules.SeventhFirstUnresolved | harmonic_rules.py:1737-1759 | with a chord object and no change of voicing, nothing iff every seventh voice resolves, else the first that does not |
| ResolutionRules.SeventhIgnoresRevoicingWithoutInversion | harmonic_rules.py:1730-1737 | when neither chord states an inversion, the rebuilt record (inversion 0) never counts as a voicing change of the second chord |
| TextureRules.VoiceCrossing | harmonic_rules.py:1832-1871 | nothing iff no adjacent pair (B-T, T-A, A-S) of the first chord has its lower voice sounding above its upper voice; otherwise the first such pair, on chord 0 |
| TextureRules.MaximumDistance | harmonic_rules.py:1917-1965 | nothing iff neither A-S nor T-A of the first chord lies more than twelve semitones apart; otherwise the first such pair, on chord 0 |
| TextureRules.VoiceOverlap | harmonic_rules.py:2010-2062 | nothing iff no adjacent pair has the upper voice fall below the lower voice's former note or the lower voice rise above the upper voice's former note; otherwise the first such pair |
| TextureRules.VerticalRulesReadFirstChord | harmonic_rules.py:1844-1871 | crossing and spacing look only at the first chord: replacing the second chord changes neither result |
| TextureRules.MaximumDistanceSparesBass | harmonic_rules.py:1931-1934 | a spacing report never names the bass (tenor and bass may lie more than an octave apart) |
| TextureRules.OrderedVoicesNeverCross | harmonic_rules.py:1846-1865 | a chord whose adjacent voices are in order never draws a crossing report |
| TextureRules.RepeatedChordOverlapIsCrossing | harmonic_rules.py:2021-2062 | when the second chord repeats the first's notes, overlap and crossing report the same pair |
| TextureRules.FactorRoot | harmonic_rules.py:2161-2172 | the chord's root when it has one, else the name of its bass note; nothing only when neither is present |
| TextureRules.FactorVoices | harmonic_rules.py:2175-2190 | exactly the S/A/T/B voices present whose note is the given factor above the root |
| TextureRules.CollectFactorVoices | harmonic_rules.py:2175-2190 | the loop over S, A, T, B builds `FactorVoices` |
| TextureRules.FactorVoicesOrdered | harmonic_rules.py:2177 | the voices found come in S, A, T, B order |
| TextureRules.Doubled | harmonic_rules.py:2193-2200 | a report iff the chord has a root (or bass) and at least two voices hold the factor, and then those voices |
| TextureRules.DoubledLeadingTone | harmonic_rules.py:2147-2158 | only a chord whose degree is V, vii°, V/… or vii…/… is checked, and then the third's doubling decides |
| TextureRules.EitherChord | harmonic_rules.py:2123-2134 | the first chord's report wins, with index 0; the second chord's is used only when the first is clean, with index 1 |
| TextureRules.DuplicatedLeadingToneReport | harmonic_rules.py:2108-2200 | a report names a dominant chord and exactly its two or more voices holding the third; chord 1 is reported only when chord 0 is clean; two non-dominant chords draw nothing |
| TextureRules.DuplicatedSeventhReport | harmonic_rules.py:2237-2315 | a report names a chord and exactly its two or more voices holding the seventh; nothing iff neither chord doubles its seventh |
| TextureRules.CheckDoubled | harmonic_rules.py:2136-2200 | the per-chord method gives `Doubled` |
| TextureRules.DetectDuplicatedLeadingTone | harmonic_rules.py:2108-2134 | the method gives the doubled-leading-tone result |
| TextureRules.DetectDuplicatedSeventh | harmonic_rules.py:2237-2261 | the method gives the doubled-seventh result |
| TextureRules.ExcessiveLeapVoices | harmonic_rules.py:2377-2402 | exactly the voices present in both chords that move by more than twelve semitones, in S, A, T, B order |
| TextureRules.ExcessiveMelodicMotion | harmonic_rules.py:2405-2412 | nothing iff no voice leaps beyond the octave; otherwise every leaping voice, on chord 1 |
| TextureRules.DetectExcessiveMelodicMotion | harmonic_rules.py:2365-2412 | the loop gives `ExcessiveMelodicMotion` |
| TextureRules.OctaveLeapAllowed | harmonic_rules.py:2393-2397 | a leap of exactly an octave is never reported |
| TextureRules.ObjectFactorsOfParts | chord_knowledge.py:478-490 | the `Chord` object's factor map is the factor of each S/A/T/B note above the root |
| TextureRules.PresentAlong | harmonic_rules.py:2638-2645 | '?' is never among the factors collected |
| TextureRules.PresentAlongMembers | harmonic_rules.py:2638-2645 | a factor is collected iff it is not '?' and some listed voice present sounds it |
| TextureRules.CollectPresentFactors | harmonic_rules.py:2638-2645 | the loop over S, A, T, B collects `PresentAlong` of the four voices |
| TextureRules.PresentIffSounds | harmonic_rules.py:2638-2645 | the legacy set of present factors and the object's factor map agree on every factor other than '?' |
| TextureRules.LegacyPresence | harmonic_rules.py:2633-2666 | with a root, third and seventh are present in the legacy check iff some voice sounds them |
| TextureRules.ImproperOmission | harmonic_rules.py:2460-2674 | exempt special chords draw nothing; a report is the fixed chord-0 '?' report of a chord with a root missing its third or its seventh; a non-exempt chord with a root and no third is always reported |
| TextureRules.ObjectOmission | harmonic_rules.py:2593-2625 | the fixed report; present exactly when the third does not sound, or when the type has four factors and the seventh does not sound |
| TextureRules.LegacyOmission | harmonic_rules.py:2627-2674 | nothing without a root; otherwise the fixed report exactly when the third does not sound, or when the degree names V7 or vii°7 or the quality names a seventh and the seventh does not sound |
| TextureRules.LegacySeventhReported | harmonic_rules.py:2627-2674 | without a known chord type, a non-exempt chord named as a seventh chord whose seventh does not sound is always reported |
| TextureRules.DetectImproperOmission | harmonic_rules.py:2552-2590 | the method, building the chord object as the source does, gives `ImproperOmission` |
| TextureRules.RootWithoutVoicesMissesThird | harmonic_rules.py:2589-2612 | a non-exempt chord with a root but no voices is reported as missing its third |
| TextureRules.FourFactorQualitiesNameSeventh | chord_knowledge.py:409-424 | every known quality whose chord type has four factors names a seventh, so "seventh in quality" covers them |
| TextureRules.ObjectOmissionReportsMissingSeventh | harmonic_rules.py:2593-2625 | through the chord object, a report iff the third or the seventh is missing |
| ChordKnowledge.QualityToChordType | chord_knowledge.py:409-418 | the eight known qualities map to chord types, and only unknown ones give 'unknown' |
| ChordKnowledge.QualityMapInjective | chord_knowledge.py:409-418 | no two known qualities share a chord type |
| ChordKnowledge.NumFactors | chord_knowledge.py:65-248 | the three triads have three factors, the five seventh chords four, the unknown type none |
| ChordKnowledge.FiguredBassCoversInversions | chord_knowledge.py:65-248 | every inversion a chord type can have (0 to its number of factors minus one) has a figure |
| ChordKnowledge.FactorsOf | chord_knowledge.py:478-486 | a factor is recorded for exactly the S/A/T/B voices present |
| ChordKnowledge.SelectWithFactor | chord_knowledge.py:496-498 | a voice is selected iff it is listed and holds the factor |
| ChordKnowledge.SelectKeepsOrder | chord_knowledge.py:496-498 | selecting keeps the voices in S, A, T, B order |
| ChordKnowledge.VoicesWithFactor | chord_knowledge.py:496-498 | exactly the voices holding the factor, in S, A, T, B order, at most four |
| ChordKnowledge.ValuesAlong | chord_knowledge.py:513 | a factor is among the values iff some listed voice holds it |
| ChordKnowledge.FactorValues | chord_knowledge.py:513 | the values of the factor map, at most four, are exactly the factors some voice holds |
| ChordKnowledge.SelectCountsValues | chord_knowledge.py:496-516 | the voices holding a factor are as many as its occurrences among the values |
| ChordKnowledge.VoicesWithFactorCount | chord_knowledge.py:496-516 | `get_voices_with_factor` and the counts of `get_doubled_factors` agree |
| ChordKnowledge.HasFactorIffVoices | chord_knowledge.py:496-502 | `has_factor` holds iff `get_voices_with_factor` is not empty |
| ChordKnowledge.RequiredFactors | chord_knowledge.py:522-531 | 1-3-5 for a three-factor type, 1-3-5-7 for a four-factor type, nothing otherwise |
| ChordKnowledge.MissingFactors | chord_knowledge.py:518-536 | nothing for a missing or unknown type; otherwise exactly the required factors no voice holds |
| ChordKnowledge.CompleteIffNothingMissingForTriads | chord_knowledge.py:504-536 | for a triad, `is_complete` holds iff nothing is missing |
| ChordKnowledge.FiguredBass | chord_knowledge.py:584-595 | the type's figure for the inversion, or '?' for no type or an inversion without a figure |
| ChordKnowledge.ChordTypeOf | chord_knowledge.py:456-469 | a chord type exactly when there is a root and a non-empty quality, and then the quality's type |
| ChordKnowledge.AnalyzedFactors | chord_knowledge.py:456-486 | no factors without a root; otherwise one per present voice |
| ChordKnowledge.Chord.constructor | chord_knowledge.py:445-486 | keeps the given fields, records the factor of every present voice (none without a root), sets the chord type and whether a seventh sounds |
| ChordKnowledge.Chord.GetFactorForVoice | chord_knowledge.py:492-494 | the recorded factor of the voice, or '?' |
| ChordKnowledge.Chord.IsCompleteQuery | chord_knowledge.py:504-508 | complete exactly when some voice holds the root, some the third and some the fifth |
| ChordKnowledge.Chord.GetMissingFactors | chord_knowledge.py:518-536 | a factor is missing exactly when the chord has a type, the type requires the factor and no voice holds it |
| ChordKnowledge.Chord.GetFiguredBass | chord_knowledge.py:590-595 | the type's figure for the inversion when the table has one, and '?' otherwise |
| ChordKnowledge.Chord.GetVoicesWithFactor | chord_knowledge.py:496-498 | exactly the voices recorded with the factor, in S, A, T, B order |
| ChordKnowledge.Chord.HasFactorQuery | chord_knowledge.py:500-502 | holds iff some voice is recorded with the factor |
| ChordKnowledge.Chord.GetDoubledFactors | chord_knowledge.py:510-516 | the counting loops give `DoubledFactors` of the voices' factors |
| ChordKnowledge.KeepCounted | chord_knowledge.py:516 | keeps, in counting order, the counted factors whose count exceeds one |
| ChordKnowledge.CountFactors | chord_knowledge.py:512-515 | counts every factor other than '?' exactly, keys in order of first appearance |
| ChordKnowledge.DistinctFactors | chord_knowledge.py:512-515 | the keys counted are exactly the factors other than '?' that occur |
| ChordKnowledge.KeepDoubled | chord_knowledge.py:516 | a factor is kept iff it was counted and occurs more than once |
| ChordKnowledge.DoubledFactorsMembers | chord_knowledge.py:510-516 | a factor is reported doubled iff it is not '?' and occurs at least twice |
| ChordKnowledge.DoubledFactorsOrdered | chord_knowledge.py:510-516 | the doubled factors come in the order of their first appearance |
| ChordKnowledge.DistinctFactorsOrdered | chord_knowledge.py:512-515 | the counting keys come in the order of their first appearance |
| ChordKnowledge.KeepDoubledOrdered | chord_knowledge.py:516 | keeping preserves the order of first appearance |
| ChordKnowledge.SelectWithMovement | chord_knowledge.py:632-639 | a voice is selected iff it is listed and moves from the one factor to the other |
| ChordKnowledge.VoicesWithMovement | chord_knowledge.py:632-639 | exactly the S/A/T/B voices making the movement, in S, A, T, B order |
| ChordKnowledge.MovementKeepsOrder | chord_knowledge.py:635-638 | selecting by movement keeps the voice order |
| ChordKnowledge.AllFactorMovements | chord_knowledge.py:641-646 | a movement for each of S, A, T and B, each the pair of its factors in the two chords |
| ChordKnowledge.Progression.constructor | chord_knowledge.py:610-624 | keeps the two chords |
| ChordKnowledge.Progression.GetFactorMovement | chord_knowledge.py:626-630 | the voice's recorded factor in each chord, '?' where a chord records none, as `get_factor_for_voice` gives them |
| ChordKnowledge.Progression.GetAllFactorMovements | chord_knowledge.py:641-646 | an entry for each of S, A, T and B, holding that voice's factor movement |
| ChordKnowledge.Progression.GetVoicesWithMovement | chord_knowledge.py:632-639 | exactly the S/A/T/B voices whose factor movement is the one asked for |
| ChordKnowledge.MajorTriadExample | tests/test_chord_knowledge.py:43-87 | C3-E3-G4-C5 over C gives 1, 3, 5, 1 and the figure 5/3 |
| ChordKnowledge.MajorTriadQueries | tests/test_chord_knowledge.py:63-83 | that chord is complete, holds no seventh, misses nothing |
| ChordKnowledge.RootDoubledExample | tests/test_chord_knowledge.py:78-79 | ...and only its root is doubled |
| ChordKnowledge.DominantSeventhExample | tests/test_chord_knowledge.py:92-126 | G2-B3-D4-F4 over G has its seventh only in S and its third only in T |
| ChordKnowledge.DominantSeventhFigures | tests/test_chord_knowledge.py:136-164 | the dominant seventh's figures are 7/+ in root position and 6/5- in first inversion |
| ChordKnowledge.IncompleteSeventhExample | tests/test_chord_knowledge.py:224-241 | G2-B3-F4-B4 over G gives 1, 3, 7, 3 |
| ChordKnowledge.IncompleteSeventhQueries | tests/test_chord_knowledge.py:243-257 | that chord is incomplete, misses only its fifth and doubles its third |
| ChordKnowledge.DominantResolutionExample | tests/test_chord_knowledge.py:169-194 | the factors of V7 (G2-B3-D4-F4) and of I (C3-C4-E4-C5) |
| ChordKnowledge.DominantResolutionMovements | tests/test_chord_knowledge.py:196-219 | the movements are B 1→1, T 3→1, A 5→3, S 7→1 |
| Engine.DefaultKindsAreAllRules | harmonic_rules.py:2723-2757 | the default registration lists every rule kind, each once |
| Engine.CollectedBy | harmonic_rules.py:2797-2805 | collecting the reports of a list of rules yields at most one report per rule |
| Engine.CollectedByAppend | harmonic_rules.py:2799-2805 | collecting over two lists of rules in turn is collecting over each and concatenating |
| Engine.States | harmonic_rules.py:2799 | one state per rule, in the same order |
| Engine.CollectedBound | harmonic_rules.py:2797-2807 | `validate_progression` returns at most one error per enabled rule |
| Engine.CollectedFromEnabled | harmonic_rules.py:2797-2807 | every error returned is the `validate` result of some enabled rule on the two chords |
| Engine.DisabledRuleIsSilent | harmonic_rules.py:2800-2801 | a disabled rule contributes nothing: removing it leaves the errors unchanged |
| Engine.DisabledByNameIsSilent | harmonic_rules.py:2818-2825 | after disabling the first rule of a name, the errors are those of the engine without that rule |
| Engine.FirstNamed | harmonic_rules.py:2811-2815 | the index of the first rule with the name, or nothing iff no rule has it |
| Engine.ActiveAmong | harmonic_rules.py:2837-2842 | exactly the enabled rules, keeping only those of the tier when one is given |
| Engine.ActiveAmongSingleton | harmonic_rules.py:2837-2842 | one rule is kept, once, exactly when it is enabled and of the tier asked for |
| Engine.ActiveAmongAppend | harmonic_rules.py:2837-2842 | filtering a concatenation is the concatenation of the filtered parts, so the list comprehension keeps registration order and keeps a rule as often as it is registered |
| Engine.EngineContext | harmonic_rules.py:2790-2795 | a context with a key: the caller's when it has one, else the engine's key |
| Engine.RulesEngine.constructor | harmonic_rules.py:2706-2721 | keeps the key and registers the fourteen default rules, enabled, with their own exceptions |
| Engine.RulesEngine.RegisterDefaultRules | harmonic_rules.py:2723-2762 | registers the default rules in the source's order |
| Engine.RulesEngine.RegisterDefault | harmonic_rules.py:2726-2757 | registers the next default rule, keeping the ones before |
| Engine.RulesEngine.RegisterRule | harmonic_rules.py:2764-2771 | appends the rule and changes nothing else |
| Engine.RulesEngine.ValidateProgression | harmonic_rules.py:2774-2807 | the loop returns, in rule order, the reports of the enabled rules run with the completed context |
| Engine.RulesEngine.EnableRule | harmonic_rules.py:2809-2816 | enables the first rule with the name and no other; exceptions untouched |
| Engine.RulesEngine.DisableRule | harmonic_rules.py:2818-2825 | disables the first rule with the name and no other; exceptions untouched |
| Engine.RulesEngine.ActiveRules | harmonic_rules.py:2827-2842 | exactly the enabled registered rules, of the tier when one is given; it is `ActiveAmong` of the rule list, whose order and multiplicity `ActiveAmongAppend` and `ActiveAmongSingleton` state |
| Engine.RulesEngine.FormatErrorsForApp | harmonic_rules.py:2844-2916 | one formatted error per error, in order, each `FormatError` of it |
| Engine.FormatAllPointwise | harmonic_rules.py:2882-2914 | the formatted list has the errors' length and formats each in place |
| AppFormat.LowToHighRank | harmonic_rules.py:2880 | B, T, A, S rank 0 to 3; anything else sorts after them |
| AppFormat.RankInjective | harmonic_rules.py:2880 | different voices have different ranks, so the sort key decides the order completely |
| AppFormat.InsertPermutes | harmonic_rules.py:2895 | inserting adds exactly the one voice |
| AppFormat.InsertSorted | harmonic_rules.py:2895 | inserting into a sorted list keeps it sorted |
| AppFormat.SortLowToHigh | harmonic_rules.py:2895 | the voices sorted from the bass up, a permutation of the input |
| AppFormat.VoiceName | harmonic_rules.py:2872-2877 | every voice has a non-empty display name |
| AppFormat.JoinWithDash | harmonic_rules.py:2898 | joining non-empty names is empty iff there are none |
| AppFormat.NamesOf | harmonic_rules.py:2898 | one display name per voice, in order |
| AppFormat.FormatError | harmonic_rules.py:2886-2914 | the beat index is the pair's index plus the error's chord index; beat 1-4 and measure locate it; voices sorted from the bass up and a permutation of the error's; with voices, the short message becomes the original, a space, and the dash-joined display names of the sorted voices in parentheses, and without voices it is unchanged; confidence and rule carried over |
| AppFormat.MeasureBeatDetermineIndex | harmonic_rules.py:2890-2891 | two errors share measure and beat iff they share the beat index |
| AppFormat.FirstBeatOfMeasure | harmonic_rules.py:2890-2891 | an index divisible by four is beat 1 of measure index/4 + 1 |
| TonalContext.Find | analizador_tonal.py:104 | the first index of the entry, present iff the entry is in the list |
| TonalContext.FindFrom | analizador_tonal.py:104 | the first index at or after the start, present iff the entry occurs there |
| TonalContext.Armadura | analizador_tonal.py:92-114 | between -7 and 7; a major tonic in the sharp order gets its index; otherwise a major tonic whose flat spelling is in the flat order gets minus its index; any minor tonic, or a tonic in neither order, gets 0 |
| TonalContext.FlatSignature | analizador_tonal.py:105-108 | minus the flat order's index of the flat spelling, or 0 when it is absent |
| TonalContext.FindDistinct | analizador_tonal.py:96-97 | in a list without repeats, an entry's index is recovered |
| TonalContext.OrdersFacts | analizador_tonal.py:96-97 | neither order repeats a key or holds a '-'; the sharp keys hold no 'b', the flat keys no '#', and no flat key after C is in the sharp order |
| TonalContext.SharpKeysAgree | analizador_tonal.py:96-104 | the k-th key of the sharp order has k sharps |
| TonalContext.FlatKeysAgree | analizador_tonal.py:97-106 | the k-th key of the flat order (after C) has k flats |
| TonalContext.MajorTableAgrees | analizador_tonal.py:1040-1044 | every major key of the reference table gets the signature the table lists |
| TonalContext.FlatSpellingsAgree | analizador_tonal.py:99-106 | spelling flats with '-' (music21) or 'b' gives the same signature |
| TonalContext.MinusBecomesB | analizador_tonal.py:105-106 | turning '-' into 'b' leaves a 'b' in the name |
| TonalContext.ModeOf | analizador_tonal.py:130 | major exactly for the string "major" |
| TonalContext.ContextoTonal.constructor | analizador_tonal.py:74-90 | keeps tonic, mode and local key, and the signature matches them |
| TonalContext.ContextoTonal.CalcularArmadura | analizador_tonal.py:92-114 | only the signature changes, and it then matches tonic and mode |
| TonalContext.ContextoTonal.EstablecerTonalidad | analizador_tonal.py:127-132 | the new tonic and mode, no local key, and the signature of the new key |
| TonalContext.VexflowKey | analizador_tonal.py:1004-1015 | the tonic for a major key; the tonic followed by 'm' for a minor one |
| TonalContext.VexflowKeyInjective | analizador_tonal.py:1004-1015 | for tonics without an 'm', different keys get different VexFlow names |
| Cipher.Symbol | analizador_tonal.py:43-47 | one letter per harmonic function |
| Cipher.SymbolInjective | analizador_tonal.py:43-47 | different functions have different letters |
| Cipher.FuncionDeGrado | analizador_tonal.py:297-306 | dominant exactly for degrees 5 and 7, subdominant exactly for 2 and 4, tonic for every other degree |
| Cipher.Lookup | analizador_tonal.py:275 | `mapeo.get`: the table entry, or the default for an inversion not in the table |
| Cipher.CifradoSeptimaDominante | analizador_tonal.py:272-275 | "7" exactly for an inversion outside 0-3 |
| Cipher.CifradoSeptimaDisminuida | analizador_tonal.py:277-280 | "7t" exactly for root position or an inversion outside 0-3 |
| Cipher.CifradoSeptimaSensible | analizador_tonal.py:282-285 | "7,5t" exactly for root position or an inversion outside 0-3 |
| Cipher.CifradoSeptimaGeneral | analizador_tonal.py:287-290 | "7" exactly for root position or an inversion outside 0-3 |
| Cipher.CifradoTriada | analizador_tonal.py:292-295 | no figure exactly for root position or an inversion outside 1-2 |
| Cipher.FiguresTellInversionsApart | analizador_tonal.py:272-295 | each table gives different inversions different figures |
| Cipher.UnknownInversionFigures | analizador_tonal.py:272-295 | an unknown inversion reads as root position, except for the dominant seventh whose fallback "7" matches no inversion |
| Cipher.GradoStr | analizador_tonal.py:245-270 | the numeral, with at most one sign added: ø for half-diminished, ° for diminished seventh, ° for a diminished triad unless already marked with ° or o, + for augmented; other qualities unchanged |
| Cipher.SignAdded | analizador_tonal.py:258-268 | the sign is present afterwards, and added only when it was missing |
| Cipher.GradoStrIdempotent | analizador_tonal.py:245-270 | applying the degree marking twice changes nothing more |
| Cipher.Cifrado | analizador_tonal.py:180-214 | a triad's figure without a seventh; with one, the diminished table when the chord reads as diminished, else the half-diminished table, else the dominant table for a dominant, else the general table |
| Cipher.Traducir | analizador_tonal.py:155-231 | the marked degree, the figure, the function of the scale degree, the full text as degree followed by figure, no ninth, and the numeral's inversion |
| Cipher.InvertedSeventhFiguresMarkSeventh | analizador_tonal.py:180-185 | a figure holding 65, 43 or 42 always counts as a seventh chord |
| Cipher.DominantSeventhFigures | analizador_tonal.py:196-202 | a seventh on degree 5 that does not read as diminished gets the dominant table (6,5t in first inversion, +4 in third) and the dominant function |
| Cipher.DiminishedSignWins | analizador_tonal.py:197-205 | a seventh chord that reads as diminished gets the diminished table |
| Cipher.SecondInversionTriad | analizador_tonal.py:292-295 | a triad in second inversion gets 6,4 after its degree |
| FunctionDetection.Objetivo | analizador_tonal.py:406-416 | the target a secondary chord points to: a minor second above the root of a diminished chord, a perfect fourth above any other root |
| FunctionDetection.GradoObjetivo | analizador_tonal.py:419-422 | the scale degree (1-7) whose note is the target's name, or nothing iff no scale step has that name |
| FunctionDetection.TargetTablesAgree | analizador_tonal.py:330-349 | degrees II to VI are exactly the accepted targets, and the target formats of either mode are the mode's own diatonic numerals |
| FunctionDetection.EsObjetivoValido | analizador_tonal.py:426-427 | a target degree is accepted iff it lies between II and VI |
| FunctionDetection.FormatoObjetivo | analizador_tonal.py:432-451 | the target, written as the mode's diatonic numeral for that degree |
| FunctionDetection.AnalisisSecundario | analizador_tonal.py:388-476 | a result iff the chord is a dominant seventh, major or diminished, has a root and its target is degree II to VI; the target is the diatonic numeral of that degree; the type is V exactly for a non-diminished chord, and is always `TipoSecundario` (viiø for a half-diminished seventh, vii° for another diminished chord); the figure is always `CifradoSecundario`, the detector's own table; the seventh, the inversion and, for the dominant and triad cases, the figure are as the chord says |
| FunctionDetection.TipoSecundario | analizador_tonal.py:406-416 | V exactly for a chord that is not diminished; viiø for a half-diminished seventh, else vii° |
| FunctionDetection.CifradoSecundario | analizador_tonal.py:454-467 | the dominant-seventh table for a dominant seventh; the detector's own diminished-seventh table for a diminished seventh chord; the triad table otherwise |
| FunctionDetection.DominanteSecundaria | analizador_tonal.py:354-479 | a result iff some pitch lies outside the scale and the analysis finds one, and then that analysis; a chord whose pitches all lie in the scale is never a secondary chord |
| FunctionDetection.DetectarDominanteSecundaria | analizador_tonal.py:373-386 | the method, with its scan for a chromatic pitch, gives `DominanteSecundaria` |
| FunctionDetection.SecondaryTargetAbove | analizador_tonal.py:404-427 | a secondary chord's target degree lies a fourth above the root (a semitone for a diminished chord) and is one of II to VI |
| FunctionDetection.ObtenerFuncion | analizador_tonal.py:527-543 | the same function the translator gives the degree; the quality plays no part |
| FunctionDetection.DetectarPrestamoMenor | analizador_tonal.py:481-509 | a borrowing iff the key is major and the parallel minor's numeral is one of i, iv, bVI, bVII, ii°, v, bIII; its numeral, base, inversion, seventh and degree are those of that numeral |
| SpecialChords.SobreTonica | analizador_tonal.py:579 | the pitch class the given interval above the tonic |
| SpecialChords.EsNapolitana | analizador_tonal.py:574-602 | holds iff the chord has a root a semitone above the tonic and is a major triad |
| SpecialChords.NapolitanaIsChromatic | analizador_tonal.py:579-592 | the Neapolitan's root never lies in the scale, in either mode |
| SpecialChords.Valor | analizador_tonal.py:59-66 | each augmented sixth's label is four letters starting "+6" |
| SpecialChords.ValorInjective | analizador_tonal.py:62-64 | different kinds of augmented sixth have different labels |
| SpecialChords.DetectarSextaAumentada | analizador_tonal.py:623-659 | with the lowered sixth, raised fourth and tonic present: Italian iff three classes; German iff four including the lowered third; French iff four including the second but not the lowered third |
| SpecialChords.SextaSpansAugmentedSixth | analizador_tonal.py:628-629 | the raised fourth lies ten semitones above the lowered sixth |
| SpecialChords.CharacteristicClassesDistinct | analizador_tonal.py:628-632 | the lowered sixth, tonic, second, lowered third and raised fourth are five different classes |
| SpecialChords.ItalianSixthRecognised | analizador_tonal.py:635-650 | lowered sixth, tonic and raised fourth are recognised as the Italian sixth |
| SpecialChords.FrenchSixthRecognised | analizador_tonal.py:645-657 | adding the second gives the French sixth |
| SpecialChords.GermanSixthRecognised | analizador_tonal.py:645-654 | adding the lowered third gives the German sixth |
| SpecialChords.SextaNeedsCore | analizador_tonal.py:638-659 | any augmented sixth found holds the core and three or four classes |
| Sonority.ClassesOf | analizador_tonal.py:380-381 | exactly the pitch classes, 0-11, of the chord's pitches |
| Sonority.FindChromaticPitch | analizador_tonal.py:378-386 | the scan finds a pitch outside the scale iff not every pitch is diatonic |
| TonalBrain.Normalizada | analizador_tonal.py:764-767 | an empty note is dropped; any other is kept with every 'b' written as '-' |
| TonalBrain.NotasValidas | analizador_tonal.py:762-767 | the loop over the voices' notes gives `NotasValidasDe` |
| TonalBrain.NotasValidasSpec | analizador_tonal.py:762-767 | no more notes than voices; every kept note is non-empty and has no 'b'; every non-empty note is kept, normalised; nothing else is kept |
| TonalBrain.TieneNovena | analizador_tonal.py:776-790 | the loop finds a pitch thirteen or fourteen semitones above the root, other than the root itself, iff there is one |
| TonalBrain.NovenaIsCompoundSecond | analizador_tonal.py:785 | such a pitch has the class of a second (minor or major) above the root |
| TonalBrain.EsDiatonico | analizador_tonal.py:974-984 | holds iff every pitch of the chord lies in the scale |
| TonalBrain.PrestamoModal | analizador_tonal.py:823-837 | a borrowing iff the key is major and either the parallel minor's numeral is an allowed borrowing or the chord's own numeral is a common one; the detector's result wins, else the chord's own numeral is used |
| TonalBrain.ConNovena | analizador_tonal.py:803-814 | with a ninth, the figure becomes 9 after the degree and degree 5 gains a seventh; without one, nothing changes; degree, function and inversion are kept |
| TonalBrain.Eleccion | analizador_tonal.py:840-908 | Neapolitan first, then augmented sixth, then secondary dominant, then borrowing; no special chord only when none applies |
| TonalBrain.TipoEspecial | analizador_tonal.py:845-908 | a special chord gets a type label, and only a special chord |
| TonalBrain.FuncionPrestamo | analizador_tonal.py:907 | subdominant for a borrowed iv, ii°, bVI or bVII; otherwise the function of its degree |
| TonalBrain.CifradoPorSeptima | analizador_tonal.py:850-853 | the general seventh table for a chord with a seventh, the triad table otherwise |
| TonalBrain.TextoSecundaria | analizador_tonal.py:877-880 | the type, the figure, '/', the target |
| TonalBrain.Aplicar | analizador_tonal.py:844-908 | each special chord rewrites degree, figure, full text, function, seventh and inversion as its branch says; no special chord changes nothing; the degree number and the ninth are kept |
| TonalBrain.Marcar | analizador_tonal.py:911-919 | a '?' is appended to degree and text exactly for a chromatic chord with no special type whose degree shows an accidental and is not among the accepted ones |
| TonalBrain.AnalisisAcorde | analizador_tonal.py:745-972 | fewer than two notes give the empty result; otherwise diatonic flag, degree number, ninth, special type and quality are as the chord says; the root is the name of the chord's root, or none when the chord has none; the notes are always echoed |
| TonalBrain.NapolitanaFirst | analizador_tonal.py:844-860 | a Neapolitan is reported as bII with its figure, subdominant function, its seventh and inversion |
| TonalBrain.SextaSecond | analizador_tonal.py:862-868 | otherwise an augmented sixth is reported by its label, with no figure and subdominant function; the seventh flag and the inversion stay those of the translation |
| TonalBrain.SecundariaThird | analizador_tonal.py:870-888 | otherwise a secondary dominant is reported as type/target, with the detector's figure in the text and in the figure field, dominant function, and the detector's seventh flag and inversion |
| TonalBrain.PrestamoFourth | analizador_tonal.py:890-908 | otherwise a borrowing (only in a major key) is reported with the minor numeral's degree, its figure, the borrowing's function, the borrowing's seventh flag and the minor numeral's inversion |
| TonalBrain.PlainTranslation | analizador_tonal.py:799-919 | with no special chord, the translation, adjusted for a ninth and possibly marked with '?', and the function of the degree |
| TonalBrain.MarkOnlyUnexplainedChromatic | analizador_tonal.py:911-919 | the '?' appears iff the chord is chromatic, not special, and its degree looks altered and not accepted |
| TonalBrain.CerebroTonal.constructor | analizador_tonal.py:723-738 | a fresh tonal context for the tonic and mode, no local key, consistent signature |
| TonalBrain.CerebroTonal.EstablecerTonalidad | analizador_tonal.py:740-743 | the context takes the new key, with no local key and a consistent signature |
| TonalBrain.CerebroTonal.ObtenerArmaduraVexflow | analizador_tonal.py:1004-1015 | the VexFlow name of the context's key |
| TonalBrain.CerebroTonal.AnalizarAcorde | analizador_tonal.py:745-954 | on a key of the context's mode, the method, with its loops, gives `AnalisisAcorde` |

## Left out

- music21 is not modelled. This covers note-name parsing, `chord.root()`, `quality`, `inversion()`, the seventh tests, `romanNumeralFromChord`, `Key.getScale` and `getScaleDegreeFromPitch`. Their results are parameters (`ChordFacts`, `Numeral`, `Key`), or are modelled on those parameters as spelled transposition and name lookup.
- The `ps` value music21 gives as a float is an integer here. Only twelve-tone note names occur.
- A key is a value (`Key`). Parsing strings such as "C major" and the derived `tonalidad_str` and `key_music21` are left out.
- Logging, colours and full message texts are left out. Only the "paralelas"/"consecutivas" switch of the short message is modelled.
- Of `CHORD_DEFINITIONS`, only `num_factors` and `figured_bass` are modelled. The descriptive fields are left out.
- Every `try`/`except` fallback is left out. This includes the ones in the rules, in `traducir`, in the detectors and in `analizar_acorde`. They answer only for failures of music21 or of malformed input, and the model's typed inputs cannot fail that way. The one exception is the key-string fallback of `get_scale_degree_info`, which has its own line below.
- An exception check that raises is the exception. It is modelled as a check whose outcome is "raised", which never suppresses a finding.
- `detect_modulation` and `is_in_pattern` are stubs in the source (harmonic_rules.py:223-252). They are constants: no modulation, and never in a pattern.
- The second-fifth-is-diminished exception is a stub that always answers no. It is modelled as such.
- `DetectorCadencias` and `CerebroTonal.analizar_progresion` are left out. The cadence detector is unfinished, and the progression loop only stores a cadence that is always `None`.
- `crear_cerebro_tonal` and the `TONALIDADES_MENORES`/`TONALIDADES_PRACTICAS` lists are left out. The first is a plain constructor call; the lists are only reference data. `TONALIDADES_MAYORES` is modelled and checked against the signature.
- `_is_chromatic_chord` in the omission rule never classifies a chord as chromatic, and the model keeps it that way. The reason is that `Chord.get_intervals_from_root` (chord_knowledge.py:538-581) reads an attribute `Chord` does not have, and the error is swallowed.
- The minor-key signature is always 0 (analizador_tonal.py:109-112). This is kept as written, although `TONALIDADES_MENORES` lists the relative major's signatures.
- The secondary-chord figure table of `detectar_dominante_secundaria` (analizador_tonal.py:460) is modelled as written. Its diminished-seventh figures ("6,5t", "4,3t", "2") differ from the translator's diminished table ("+6,5t", "+4,3", "+2").
- Engine.RulesEngine.FormatErrorsForApp: the `compas` argument is ignored, as in the source, which derives the measure from the beat index. The `id` and `mensaje` strings are left out; measure, beat and the short message's voice list are modelled.
- The chord records are dictionaries, and the model reads a key that holds `None` as a missing key. This covers `ChordData`'s `quality`, `degree` and `inversion` fields, and the members `ResolutionRules.LeadingToneKindOf`, `ChordBridge.DictToChordSafe`, `TextureRules.ImproperOmission` and `TextureRules.DetectImproperOmission`. The source does not read them that way. `chord.get('degree', '?')` returns `None` when the key holds `None`, and then `'/' in None` raises `TypeError` (harmonic_rules.py:1541-1545). The same happens with `'seventh' in None` (harmonic_rules.py:2615-2616) and `None.lower()` on the degree or quality (harmonic_rules.py:2657-2661). `get('inversion', 0)` passes `None` on to `Chord` (harmonic_rules.py:773), where the model uses 0. Nothing in `validate` or `validate_progression` catches these errors, so the model does not capture the exception that escapes the engine.
- Engine.EngineContext: this is a pure function. `validate_progression` writes the engine's key into the caller's own context dictionary (harmonic_rules.py:2793-2795), and the caller can see that change after the call. The model does not capture that update in place.
- Engine.RulesEngine.ActiveRules: the order and multiplicity of the result are not in its own ensures. They are stated about `ActiveAmong`, which is its body, by `ActiveAmongAppend` and `ActiveAmongSingleton`.
- VoiceLeading.ScaleDegreeInfo, VoiceLeading.DegreeFromChord and ResolutionRules.LeadingToneResolution assume that music21 parses a key string of the form "<tonic> <mode>". Every key string the engine builds has that form (harmonic_rules.py:2795). The source builds the key with `music21.key.Key(key_str)` inside a bare `except` that falls back to C major (harmonic_rules.py:638-641), and whether music21 accepts "D major" as a tonic argument cannot be settled from the files modelled here. If music21 refuses it, the fallback is the normal path. Degrees, the leading-tone flag and root numerals would then be read in C, while the minor numeral list (harmonic_rules.py:664) and the major-mode test of the deceptive-bass allowance (harmonic_rules.py:1631) still follow the key string. The model uses the given key throughout. For C major the two readings agree.
- ChordKnowledge.Chord.GetMissingFactors: the source returns `list(missing)` of a set, whose order Python does not fix. The model returns the set.
- The docstring of `TraductorCifrado` (analizador_tonal.py:142-148) promises V65 → "+6", V43 → "+4/3", V42 → "+2" and I64 → "I 6/4". The code's tables give "6,5t", "+6" and "+4" for the dominant seventh's inversions (analizador_tonal.py:274) and "6,4" for a second-inversion triad (analizador_tonal.py:292-295). The model follows the code.
- The docstring of `detectar_sexta_aumentada` calls the augmented sixth nine semitones. The code's intervals (m6 and A4 above the tonic) give ten, which `SextaSpansAugmentedSixth` states.
- `DuplicatedSeventhRule`'s guard against records with fewer than two entries (harmonic_rules.py:2272-2273) is not modelled separately. Any report already needs two voices holding the seventh.
- `app.py`, `integration_bridge.py` and `parallel_octaves_template.py` are not part of this model. They are web plumbing, dead glue and an unregistered duplicate of the parallel-octaves rule.
