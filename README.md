# EpiInf core in Dafny

EpiInf is a BEAST 2 package for Bayesian inference of epidemic dynamics
from transmission trees and incidence data. It has four parts:
- Compartmental models (SIR, SIS, SEIS, birth-death) that turn rates and
  rate shifts into event propensities.
- Simulators that draw epidemic trajectories.
- Tree densities that score a tree against a trajectory or a particle
  filter.
- Small operators and priors for the MCMC, plus the loaders for incidence
  data and trajectories.

This project models that core, with:
- the Java classes under `src/epiinf`;
- the two Python debugging scripts: `debugging/Tree.py` is a Newick tree
  reader and writer, and `debugging/SEIS_density.py` is a SEIS particle
  filter.

The pure parts are modelled as functions on datatypes. The objects whose
fields the code updates are classes, with methods proved against those
functions.

Modules, by source file:

- `Wrappers`, `Doubles`, `RealFacts`, `Text`, `Sorting`, `Selection`,
  `Parameters`: shared helpers.
  - Option/Result.
  - Doubles with the infinities and NaN (`Double`).
  - Java and Python string splitting and trimming.
  - A stable sort by key.
  - Random choice from weights.
  - Real and integer parameters with bounds.
- `EpidemicState`, `EpidemicEvent`: the state and event records
  (EpidemicState.java, EpidemicEvent.java).
- `CompartmentModels`: the older SIRModel.java and the models under
  `models/`: SIRModel, SIRModelSampling, SIRSampleModel, SISModel and
  BirthDeathModel.
- `EpidemicModel`: rate-shift handling in models/EpidemicModel.java.
  - Rate lookup by interval.
  - The binary search over shift times.
  - The model event list.
- `TrajectorySimulators`: EpidemicTrajectorySimulator,
  SIRTrajectorySimulator and BirthDeathTrajectorySimulator.
- `TrajectoryFromFile`, `TrajectoryQueries`: loading a trajectory, and
  the origin and final-sample offset read from one.
- `TreeEvents`, `TreeDensity`: TreeEventList and distribs/TreeDensity.
- `ObservedEventsList`: ObservedEventsList.java.
- `SMCTreeDensity`: the particle filter of distribs/SMCTreeDensity.java.
- `SEISParticles`, `SEISTreeDensity`: distribs/SEISTreeDensity.java.
- `SeisDensity`: debugging/SEIS_density.py.
- `IncidenceData`, `UtilIncidenceData`, `IncidenceParameter`,
  `IncidencePrior`: the two incidence loaders, the incidence parameter
  and its prior.
- `ChangeTimesOperator`, `ExponentialChangeTimesPrior`,
  `MultiParamDeltaExchange`, `ScaleWithInt`, `IntRealUpDown`: the
  operators and the change-time prior.
- `EpiInfUtilityMethods`: util/EpiInfUtilityMethods.java.
- `NewickLexer`, `NewickParser`, `NewickTree`, `NewickRoundTrip`: Tree.py.
  - The lexer.
  - The recursive-descent parser.
  - Node heights.
  - Printing.
  - The theorem that loading a printed tree gives back the loaded tree.

Randomness, `log`/`exp`/`lnGamma` and number parsing are parameters of the operations that use them:
- Each random draw is a parameter, with its range as a precondition.
- Each mathematical function is a function parameter.
- Each number parser is a function parameter.

File contents are passed in as sequences of lines.

The table below has one row per member whose contract states something
about the source. A function that only defines a value has no row of its
own: an `ensures` of such a function spells out the definition for the
members that use it, and the lemmas stating what it means have the row.
Examples:
- the Double arithmetic;
- event and record constructors;
- the pointwise maps over particles;
- the rate accessors;
- the token test of the Newick parser.

The SEIS_density.py `updateParticle` stub, which returns weight 1, is
modelled the same way, as `SeisDensity.UpdateParticle`.

## Model

| member | source | states |
|---|---|---|
| EpidemicState.TruncateToLong | src/epiinf/EpidemicState.java:65-67 | the (long) cast of a size truncates toward zero: the result is within one of the value, below it for non-negative values and above it for negative ones |
| EpidemicState.TruncateWhole | src/epiinf/EpidemicState.java:65-67 | a whole-valued size is printed as exactly that integer |
| EpidemicState.RecordFields | src/epiinf/EpidemicState.java:56-67 | a record splits at spaces into the three truncated sizes, one field per column of the header "S I R" |
| EpidemicState.EpidemicState.constructor | src/epiinf/EpidemicState.java:30-34 | the new state holds exactly the given S, I and R |
| EpidemicState.EpidemicState.Copy | src/epiinf/EpidemicState.java:36-43 | copy returns a fresh object holding the same three sizes |
| EpidemicState.EpidemicState.GetRecord | src/epiinf/EpidemicState.java:65-67 | the record of the current sizes, as the Record function defines it |
| EpidemicEvent.TypeName | src/epiinf/EpidemicEvent.java:26 | every type prints as a non-empty name without spaces, an unset type as "null" |
| EpidemicEvent.TypeNameInjective | src/epiinf/EpidemicEvent.java:26 | different types print differently, so a record's name determines its type |
| EpidemicEvent.RecordFields | src/epiinf/EpidemicEvent.java:48-50 | a record splits at the space into the type's name and the multiplicity |
| EpidemicEvent.MultipleSamples | src/epiinf/EpidemicEvent.java:57-63 | a sample event at time -1 with the given multiplicity; multiplicity 1 gives an event equal in time, type and multiplicity to the static `Sample` (a new object in the source, which the value model does not tell apart) |
| CompartmentModels.InfectionPropensity | src/epiinf/models/SISModel.java:74-77 | the infection propensity is non-negative for non-negative rate and sizes, zero without infecteds, and (outside the birth-death model, src/epiinf/models/BirthDeathModel.java:71-74) zero without susceptibles |
| CompartmentModels.RecoveryPropensity | src/epiinf/models/SISModel.java:79-82 | the recovery propensity is non-negative for non-negative rate and infecteds and zero without infecteds |
| CompartmentModels.PropensitiesScale | src/epiinf/models/BirthDeathModel.java:71-79 | the birth-death infection propensity does not depend on S, and both propensities are linear in the rate |
| CompartmentModels.IncrementEffect | src/epiinf/models/SISModel.java:84-101 | an infection moves the event's multiplicity into I (from S except in the birth-death model); a removing type (recovery, rho, psi or other sample, as each model's switch lists them) moves it out of I (back to S in SIS, to R in SIR, src/epiinf/models/SIRModel.java:53-70, nowhere in birth-death); every other type changes nothing |
| CompartmentModels.IncrementConserves | src/epiinf/models/SIRModel.java:53-70 | SIS keeps S + I and R, SIR keeps S + I + R, birth-death (src/epiinf/models/BirthDeathModel.java:81-96) never changes S or R |
| CompartmentModels.RecoveryUndoesInfection | src/epiinf/models/SISModel.java:84-101 | in the SIS and birth-death models a recovery of k undoes an infection of k |
| CompartmentModels.IncrementState | src/epiinf/models/SISModel.java:84-101 | incrementState updates the passed state in place to the Incremented counts (also src/epiinf/models/SIRModel.java:53-70 and src/epiinf/models/BirthDeathModel.java:81-96) |
| CompartmentModels.SingleIncrementMeaning | src/epiinf/models/SIRModelSampling.java:60-76 | every single event keeps S + I + R; an infection moves one from S to I; a recovery, a sample (except in the original SIR model, src/epiinf/SIRModel.java:57-71) and with sampling probabilities a multi-sample move one from I to R (src/epiinf/models/SIRSampleModel.java:55-72); other types change nothing |
| CompartmentModels.TableSumTwo | src/epiinf/SIRModel.java:53-54 | the total of two propensity entries is their sum |
| CompartmentModels.TableSumThree | src/epiinf/models/SIRModelSampling.java:55-57 | the total of three propensity entries is their sum |
| CompartmentModels.ProbCoalescence | src/epiinf/models/SIRModelSampling.java:78-86 | below two infecteds the coalescence probability is 0; otherwise it is the inverse of the N(N-1) ordered pairs, so in (0, 1/2] |
| CompartmentModels.ProbNoCoalescence | src/epiinf/models/SIRModelSampling.java:88-96 | below two infecteds the result is 0 |
| CompartmentModels.ProbNoCoalescenceMeaning | src/epiinf/models/SIRModelSampling.java:78-96 | getProbNoCoalescence is the number of ordered lineage pairs times getProbCoalescence, and it is a probability whenever the lineages do not outnumber the infecteds |
| CompartmentModels.SIRModelSampling.constructor | src/epiinf/models/SIRModelSampling.java:23-33 | the model holds the given S0 and rates and an empty propensity table |
| CompartmentModels.SIRModelSampling.GetInitialState | src/epiinf/models/SIRModelSampling.java:35-38 | a fresh state with S0 susceptibles and one infected |
| CompartmentModels.SIRModelSampling.TableMeaning | src/epiinf/models/SIRModelSampling.java:40-58 | the recovery and sample entries split the recovery rate times I by the sampling probability, both non-negative when that is a probability, and the total is the infection entry plus the recovery rate times I |
| CompartmentModels.SIRModelSampling.CalculatePropensities | src/epiinf/models/SIRModelSampling.java:40-58 | the table gets the three entries of the current state, other entries kept, and the total is their sum |
| CompartmentModels.SIRModelSampling.IncrementState | src/epiinf/models/SIRModelSampling.java:60-76 | the state is updated in place to SingleIncremented for the sampling model |
| CompartmentModels.SIRSampleModel.constructor | src/epiinf/models/SIRSampleModel.java:23-33 | the model holds the given S0 and rates and an empty propensity table |
| CompartmentModels.SIRSampleModel.CalculatePropensities | src/epiinf/models/SIRSampleModel.java:40-53 | the table gets the three entries of the current state; the total leaves out the sampling entry, which with it makes the sum of all three |
| CompartmentModels.SIRSampleModel.IncrementState | src/epiinf/models/SIRSampleModel.java:55-72 | the state is updated in place to SingleIncremented for the sample-event model (the SAMPLE case falling through to the default does nothing more) |
| CompartmentModels.SIRSampleModel.CoalescenceEventType | src/epiinf/models/SIRSampleModel.java:74-77 | the coalescence event type adds an infected |
| CompartmentModels.SIRSampleModel.LeafEventType | src/epiinf/models/SIRSampleModel.java:79-82 | the leaf event type is a sample, which moves an infected to R and is not a recovery |
| CompartmentModels.SIRModel.constructor | src/epiinf/SIRModel.java:31-38 | the model holds the given S0 and rates and an empty propensity table |
| CompartmentModels.SIRModel.CalculatePropensities | src/epiinf/SIRModel.java:45-55 | the table gets the infection and recovery entries of the current state and the total is their sum |
| CompartmentModels.SIRModel.IncrementState | src/epiinf/SIRModel.java:57-71 | the state is updated in place to SingleIncremented for the original SIR model |
| CompartmentModels.NoInfectedsNoEvents | src/epiinf/models/SIRSampleModel.java:40-53 | with no infecteds every propensity table sums to zero, so nothing more can happen |
| EpidemicModel.ForwardTimesAscending | src/epiinf/models/EpidemicModel.java:199-218 | increasing shift times give increasing forward times in either direction, as the method's comment promises |
| EpidemicModel.ForwardTimesStrictlyAscending | src/epiinf/models/EpidemicModel.java:199-218 | strictly increasing shift times give strictly increasing forward times in either direction |
| EpidemicModel.SearchLoop | src/epiinf/models/EpidemicModel.java:268-294 | the loop's result is an interval index between 0 and the number of shift times |
| EpidemicModel.IntervalUnique | src/epiinf/models/EpidemicModel.java:260-267 | for increasing shift times the interval holding a time is unique |
| EpidemicModel.IntervalExists | src/epiinf/models/EpidemicModel.java:260-267 | for increasing shift times some interval holds every time |
| EpidemicModel.SearchFinds | src/epiinf/models/EpidemicModel.java:268-294 | the search with the imid conversion on an early return returns the interval of the time (from the end for backward inputs) |
| EpidemicModel.BackwardEarlyReturnDiverges | src/epiinf/models/EpidemicModel.java:279-280 | with backward shifts 20, 50, 100 and origin 200, time 101 lies in forward interval 1, but the search as written returns 3 where the intended conversion returns 2 |
| EpidemicModel.SearchAgrees | src/epiinf/models/EpidemicModel.java:277-293 | the as-written and intended searches agree for forward inputs and for backward inputs before every shift |
| EpidemicModel.LookupAsWrittenAgrees | src/epiinf/models/EpidemicModel.java:248-258 | the rate lookup as written gives the intended rate for forward inputs and, for backward inputs, at times before every shift |
| EpidemicModel.BackwardLookupAsWrittenDiverges | src/epiinf/models/EpidemicModel.java:248-294 | with values 1, 2, 3, 4, backward shifts 20, 50, 100 and origin 200, the rate at time 101 should be 3 but is 4 as written |
| EpidemicModel.RateAtTimeMeaning | src/epiinf/models/EpidemicModel.java:238-258 | with sorted shift times, the intended getRateAtTime gives the value of the interval holding the time, counted from the end for backward inputs |
| EpidemicModel.ShiftRateAgrees | src/epiinf/models/EpidemicModel.java:477-492 | with one more value than strictly increasing shift times, the intended rate change at shift i carries the rate the lookup gives at that shift's time |
| EpidemicModel.ForwardShiftAsWrittenDiverges | src/epiinf/models/EpidemicModel.java:231-236 | with values 1, 2 and a forward shift at 5, the rate after the shift is 2, but the rate change built as written carries 1 |
| EpidemicModel.Transform | src/epiinf/models/EpidemicModel.java:338-360 | transformRates keeps the infection and recovery rates as they are |
| EpidemicModel.TransformSplitsPsi | src/epiinf/models/EpidemicModel.java:356-359 | the removing and non-removing psi-sampling rates add up to the psi-sampling rate |
| EpidemicModel.ProportionMeaning | src/epiinf/models/EpidemicModel.java:83-89 | in proportion mode a variable v in (0, 1) gives a psi rate with psi/(mu+psi) == v, the proportion the input describes (lines 345-351); v <= 0 gives no psi sampling |
| EpidemicModel.ShiftEventRate | src/epiinf/models/EpidemicModel.java:482-491 | a backward rate change carries the rate of the interval after its shift; as written a forward one carries element 0 |
| EpidemicModel.ShiftEvents | src/epiinf/models/EpidemicModel.java:477-492 | no shift times give no events, otherwise one rate change per shift time |
| EpidemicModel.RhoEventsShape | src/epiinf/models/EpidemicModel.java:439-452 | one rho event per positive probability, each with that positive probability; zero-probability ones are skipped |
| EpidemicModel.ModelEventsShape | src/epiinf/models/EpidemicModel.java:435-475 | the model event list is sorted by time, a permutation of the appended events, with one rho event per positive probability and one rate change per shift time, and every rho event has positive probability |
| EpidemicModel.UnsortedCount | src/epiinf/models/EpidemicModel.java:435-472 | before sorting, the list holds one event per positive rho probability and one per shift time |
| EpidemicModel.SortedRhoPositive | src/epiinf/models/EpidemicModel.java:474 | sorting keeps every rho event's probability positive |
| EpidemicModel.ShiftEventsAreChanges | src/epiinf/models/EpidemicModel.java:484-486 | every shift event is a rate change |
| EpidemicModel.UnsortedRhoPositive | src/epiinf/models/EpidemicModel.java:439-472 | every rho event appended has positive probability |
| EpidemicModel.PutMeaning | src/epiinf/models/EpidemicModel.java:415-426 | an event before the origin or a rho event leaves the rates; a rate change at or after the origin sets exactly its variable |
| EpidemicModel.FreshCachesFit | src/epiinf/models/EpidemicModel.java:399-406 | freshly allocated caches have an entry for every interval, so a first rebuild never indexes past them |
| EpidemicModel.FillCaches | src/epiinf/models/EpidemicModel.java:408-426 | entry 0 holds the transformed rates at time 0 and entry i+1 those after model event i for each event at or after the origin, all other entries kept; it fails exactly when an entry it must write is missing |
| EpidemicModel.TimesCompare | src/epiinf/models/EpidemicModel.java:547-568 | equality within tolerance is symmetric and, for a positive tolerance, reflexive; timesLEQ holds exactly below or within the tolerance above |
| EpidemicModel.EpidemicModel.constructor | src/epiinf/models/EpidemicModel.java:134-146 | the model holds its inputs and tolerance, with empty event list and caches |
| EpidemicModel.EpidemicModel.InitAndValidate | src/epiinf/models/EpidemicModel.java:148-171 | an error exactly when the psi or removal values do not have one more element than their shift times; otherwise the rates are marked dirty |
| EpidemicModel.EpidemicModel.BinarySearchAsWritten | src/epiinf/models/EpidemicModel.java:268-294 | the loop as written computes SearchLoop with the imin conversion on a backward early return |
| EpidemicModel.EpidemicModel.BinarySearch | src/epiinf/models/EpidemicModel.java:268-294 | the loop with the imid conversion computes the intended SearchLoop, whose meaning SearchFinds proves |
| EpidemicModel.EpidemicModel.GetRateAtTime | src/epiinf/models/EpidemicModel.java:248-258 | 0 without a rate, element 0 without shifts, otherwise the element binarySearch as written picks |
| EpidemicModel.EpidemicModel.AddRateShiftEvents | src/epiinf/models/EpidemicModel.java:477-492 | the list grows by exactly the shift events, in order |
| EpidemicModel.EpidemicModel.UpdateModelEventList | src/epiinf/models/EpidemicModel.java:435-475 | the list becomes the sorted model events |
| EpidemicModel.EpidemicModel.Update | src/epiinf/models/EpidemicModel.java:365-429 | nothing changes while the rates are clean; otherwise the event list is rebuilt and the caches filled from the rates at time 0, failing exactly when an earlier, shorter cache is indexed past |
| EpidemicModel.EpidemicModel.RebuildCaches | src/epiinf/models/EpidemicModel.java:397-428 | the caches are allocated when empty and filled as FillCaches states; the rates are clean afterwards unless it failed |
| EpidemicModel.EpidemicModel.RatesAtOrigin | src/epiinf/models/EpidemicModel.java:373-395 | the four rates in force at time 0, an absent psi variable giving 0 |
| EpidemicModel.EpidemicModel.RequiresRecalculation | src/epiinf/models/EpidemicModel.java:536-540 | returns true and marks the rates dirty |
| EpidemicModel.EpidemicModel.Restore | src/epiinf/models/EpidemicModel.java:542-545 | marks the rates dirty |
| TreeEvents.TimeFromHeightMeaning | src/epiinf/TreeEventList.java:113-121 | the root sits at the origin's time, a greater height is an earlier time, and time differences are height differences reversed |
| TreeEvents.EventsOf | src/epiinf/TreeEventList.java:80-92 | one event per node in node order, a sample for a leaf and a coalescence otherwise, at the node's time |
| TreeEvents.EventListMeaning | src/epiinf/TreeEventList.java:77-111 | the event list is a permutation of the node events, times never increase along it, each event's kind and time are those of its node, and events at equal times keep their node order |
| TreeEvents.BuildEventList | src/epiinf/TreeEventList.java:77-111 | the loop and sort compute EventList |
| TreeEvents.TreeEventList.constructor | src/epiinf/TreeEventList.java:63-72 | initAndValidate leaves the list of the given tree, an empty stored list and a clean flag |
| TreeEvents.TreeEventList.UpdateEventList | src/epiinf/TreeEventList.java:77-111 | the list becomes that of the current tree and is marked clean; the stored copy is untouched |
| TreeEvents.TreeEventList.GetEventList | src/epiinf/TreeEventList.java:128-133 | the list is rebuilt exactly when marked dirty, so after the call it is clean, and it is current whenever it was dirty or already current |
| TreeEvents.TreeEventList.RequiresRecalculation | src/epiinf/TreeEventList.java:135-139 | marks the list dirty and answers true, nothing else changes |
| TreeEvents.TreeEventList.Store | src/epiinf/TreeEventList.java:141-147 | the stored copy becomes the current list |
| TreeEvents.TreeEventList.Restore | src/epiinf/TreeEventList.java:149-156 | the list becomes the stored copy and is marked clean |
| TreeEvents.StoreChangeRestore | src/epiinf/TreeEventList.java:128-156 | a list stored while current, then a changed tree announced and rebuilt, then tree and list restored, is current and clean again |
| ObservedEventsList.AgeEvents | src/epiinf/ObservedEventsList.java:103-110 | one unsequenced-sample event per incidence age |
| ObservedEventsList.DataEvents | src/epiinf/ObservedEventsList.java:112-122 | one unsequenced-sample event per distinct incidence age, carrying its count |
| ObservedEventsList.MergeAt | src/epiinf/ObservedEventsList.java:153-156 | folding an event into its predecessor shortens the list by one |
| ObservedEventsList.TypeTotalAppend | src/epiinf/ObservedEventsList.java:150-159 | the multiplicity total of a type over a concatenation is the sum of the totals |
| ObservedEventsList.TypeTotalOne | src/epiinf/ObservedEventsList.java:150-159 | the total of one event is its multiplicity when it has the type, else 0 |
| ObservedEventsList.MergeKeepsTotals | src/epiinf/ObservedEventsList.java:153-156 | merging two events of one type keeps the total multiplicity of every type |
| ObservedEventsList.CollateMeaning | src/epiinf/ObservedEventsList.java:150-159 | after the collation loop no two neighbours are concurrent, every type keeps its total multiplicity, and the last event's type is kept |
| ObservedEventsList.WithLineagesMeaning | src/epiinf/ObservedEventsList.java:164-179 | the lineage count starts at k and changes by +multiplicity after a coalescence, -multiplicity after a leaf, 0 otherwise; nothing else about the events changes |
| ObservedEventsList.MarkLastMeaning | src/epiinf/ObservedEventsList.java:161-162 | marking the last event of a list with none marked leaves the events and makes it the only final one |
| ObservedEventsList.AlikeKeepsCollated | src/epiinf/ObservedEventsList.java:150-179 | setting lineage counts and final marks does not make neighbours concurrent |
| ObservedEventsList.FinishedAlike | src/epiinf/ObservedEventsList.java:150-179 | the finished list holds the collated events, only the last of them final |
| ObservedEventsList.FinishedEnds | src/epiinf/ObservedEventsList.java:142-162 | the finished list ends with the end-of-observation event, the only final one, even when rho events share its time |
| ObservedEventsList.CollatedEnds | src/epiinf/ObservedEventsList.java:142-159 | collation keeps the end-of-observation event last |
| ObservedEventsList.AlikeLast | src/epiinf/ObservedEventsList.java:164-179 | lists alike end with the same type |
| ObservedEventsList.AssembledEnds | src/epiinf/ObservedEventsList.java:142-148 | the assembled list ends with the end-of-observation event |
| ObservedEventsList.FinishedCollated | src/epiinf/ObservedEventsList.java:150-179 | no two neighbours of the finished list are concurrent, and each type keeps the total multiplicity it had before collation |
| ObservedEventsList.FinishedLineages | src/epiinf/ObservedEventsList.java:164-179 | the lineage counts of the finished list start at 1 and follow each event's change |
| ObservedEventsList.LineagesFollow | src/epiinf/ObservedEventsList.java:164-179 | each lineage count is the previous one plus the previous event's change |
| ObservedEventsList.FinalFalse | src/epiinf/ObservedEventsList.java:77-159 | before the final mark no event is final |
| ObservedEventsList.NodeEventsNotFinal | src/epiinf/ObservedEventsList.java:81-101 | no node event is final |
| ObservedEventsList.RhoLeavesShape | src/epiinf/ObservedEventsList.java:127-140 | every rho leaf is a leaf of multiplicity 0, not final |
| ObservedEventsList.SortKeepsNotFinal | src/epiinf/ObservedEventsList.java:124-125 | sorting keeps every event unfinal |
| ObservedEventsList.UnsortedNotFinal | src/epiinf/ObservedEventsList.java:79-122 | no event appended before the sort is final |
| ObservedEventsList.AssembledNotFinal | src/epiinf/ObservedEventsList.java:79-148 | no assembled event is final |
| ObservedEventsList.CollateKeepsNotFinal | src/epiinf/ObservedEventsList.java:150-159 | collation keeps every event unfinal |
| ObservedEventsList.TypeTotalSame | src/epiinf/ObservedEventsList.java:150-179 | lists with the same types and multiplicities have the same totals |
| ObservedEventsList.RhoLeavesCount | src/epiinf/ObservedEventsList.java:127-140 | one rho leaf per rho sampling event of the model |
| ObservedEventsList.ObservedEventsList.constructor | src/epiinf/ObservedEventsList.java:53-68 | an empty list, marked dirty |
| ObservedEventsList.ObservedEventsList.UpdateEventList | src/epiinf/ObservedEventsList.java:70-182 | nothing changes while clean; otherwise the list becomes the finished list of the current inputs; it is clean afterwards |
| ObservedEventsList.ObservedEventsList.GetCurrentLineageCount | src/epiinf/ObservedEventsList.java:211-218 | after the update, the lineage count of the event at the state's index, or 0 past the end |
| ObservedEventsList.ObservedEventsList.MakeDirty | src/epiinf/ObservedEventsList.java:220-225 | the list is marked dirty |
| ObservedEventsList.BuildEventList | src/epiinf/ObservedEventsList.java:77-179 | assembling, collating, marking the last event and attaching lineage counts give the finished list |
| ObservedEventsList.CollatedNonEmpty | src/epiinf/ObservedEventsList.java:161-162 | the collated list is never empty, so marking its last event cannot fail |
| ObservedEventsList.AssembleEvents | src/epiinf/ObservedEventsList.java:79-148 | the loops compute the assembled list: node, age and data events sorted by time, then the rho leaves, then the end of observation |
| ObservedEventsList.Collate | src/epiinf/ObservedEventsList.java:150-159 | the loop computes the collated list |
| ObservedEventsList.AttachLineages | src/epiinf/ObservedEventsList.java:164-179 | the loop attaches the lineage counts from 1 |
| ObservedEventsList.WithLineagesStep | src/epiinf/ObservedEventsList.java:164-179 | attaching counts to one more event extends the counted prefix by that event |
| ObservedEventsList.MarkLast | src/epiinf/ObservedEventsList.java:161-162 | marking the last event final keeps the length of the list |
| ObservedEventsList.WithLineages | src/epiinf/ObservedEventsList.java:164-179 | attaching lineage counts keeps the length of the list |
| ObservedEventsList.CollatedKeepsLast | src/epiinf/ObservedEventsList.java:150-159 | collating a non-empty list gives a non-empty list whose last event has the same type as before |
| ObservedEventsList.FinishedKeepsLast | src/epiinf/ObservedEventsList.java:161-179 | marking the last event final and attaching lineage counts keep a non-empty list non-empty and keep the type of its last event |
| EpidemicModel.Mid | src/epiinf/models/EpidemicModel.java:275 | the midpoint binarySearch probes lies in [imin, imax) |
| Selection.ChooseFrom | src/epiinf/distribs/SMCTreeDensity.java:136-141 | the subtract-and-test loop (also src/epiinf/distribs/SMCTreeDensity.java:211-218 and src/epiinf/distribs/SEISTreeDensity.java:227-250), begun at slot i, ends at a slot from i up to the one-past-the-end slot |
| Selection.ChooseFromSkip | src/epiinf/distribs/SMCTreeDensity.java:137-140 | a slot whose weight does not exceed what is left of the draw is passed over, and the loop continues with that weight subtracted |
| Selection.Choose | src/epiinf/distribs/SMCTreeDensity.java:134-141 | the chosen slot is a slot index or the one-past-the-end index the source checks for at line 143 |
| Selection.PrefixAppend | src/epiinf/distribs/SMCTreeDensity.java:136-141 | weights added after the last slot do not change any earlier running total |
| Selection.PrefixMonotone | src/epiinf/distribs/SMCTreeDensity.java:136-141 | with weights that are never negative the running totals do not decrease |
| Selection.ChooseFromMeaning | src/epiinf/distribs/SMCTreeDensity.java:136-141 | every slot passed over ends at or below the draw, and a chosen slot ends above it |
| Selection.ChooseMeaning | src/epiinf/distribs/SMCTreeDensity.java:134-141 | the chosen slot is the one whose interval of running totals holds the draw, so its weight is positive; no slot is chosen only for a draw at or above the total, and with weights that are never negative exactly then |
| Selection.ChooseUnique | src/epiinf/distribs/SMCTreeDensity.java:134-141 | with weights that are never negative, a slot whose interval holds the draw is the one chosen |
| Selection.ChooseShare | src/epiinf/distribs/SMCTreeDensity.java:134 | a uniform draw in [0, 1) times the total weight chooses a slot of positive weight when the total is positive (its interval holds the scaled draw), and no slot when the total is 0 |
| Selection.ChooseBelowTotal | src/epiinf/distribs/SMCTreeDensity.java:134-141 | a draw in [0, total) chooses a slot, the one whose interval holds the draw, and that slot's weight is positive |
| Selection.ChooseAtTotal | src/epiinf/distribs/SMCTreeDensity.java:143 | a draw at or above a total that is not negative chooses no slot |
| Sorting.Insert | src/epiinf/ObservedEventsList.java:125 | insertion adds exactly one element and keeps all the others |
| Sorting.InsertSorted | src/epiinf/ObservedEventsList.java:125 | inserting into a sorted list keeps it sorted |
| Sorting.SortBy | src/epiinf/ObservedEventsList.java:125 | Collections.sort (also src/epiinf/models/EpidemicModel.java:474 and the sort by age in debugging/SEIS_density.py:31) returns a permutation of its input, sorted by non-decreasing key |
| Sorting.WithKeyNone | src/epiinf/ObservedEventsList.java:125 | a list whose keys are all above k holds no element with key k |
| Sorting.WithKeyInsert | src/epiinf/ObservedEventsList.java:125 | inserting an element adds it to the elements with its key, in front of them, and changes no other key's elements |
| Sorting.SortByStable | src/epiinf/ObservedEventsList.java:125 | the sort is stable: for every key the elements with that key keep their relative order, as Collections.sort and Python's sort promise |
| Sorting.SortBySorted | src/epiinf/ObservedEventsList.java:125 | a list that is already sorted is left unchanged |
| ChangeTimesOperator.Reciprocal | src/epiinf/util/ChangeTimesOperator.java:46 | a positive number and its reciprocal lie on opposite sides of 1 |
| ChangeTimesOperator.MinFactorRange | src/epiinf/util/ChangeTimesOperator.java:46 | minf = min(s, 1/s) lies in (0, 1], and its reciprocal is at least 1 |
| ChangeTimesOperator.FactorRange | src/epiinf/util/ChangeTimesOperator.java:46-47 | the scale factor lies in [minf, 1/minf), or is exactly 1 when minf is 1, so it is positive |
| ChangeTimesOperator.AcceptKeepsOrder | src/epiinf/util/ChangeTimesOperator.java:54-60 | a move the guard lets through keeps sorted change times sorted and keeps change times within the parameter's bounds |
| ChangeTimesOperator.HastingsRatio | src/epiinf/util/ChangeTimesOperator.java:62 | the returned -log f is a finite value, because f is positive |
| ChangeTimesOperator.ChangeTimesOperator.constructor | src/epiinf/util/ChangeTimesOperator.java:33-39 | the operator holds the given change-times parameter and scale factor |
| ChangeTimesOperator.ChangeTimesOperator.Proposal | src/epiinf/util/ChangeTimesOperator.java:42-63 | for the drawn factor and index, a move that leaves the bounds or passes a neighbour returns -infinity and changes nothing; otherwise only entry i is scaled by f and the result is -log f |
| ExponentialChangeTimesPrior.DivAdd | src/epiinf/util/ExponentialChangeTimesPrior.java:54 | two quotients by the same non-zero mean add to the quotient of the sum |
| ExponentialChangeTimesPrior.Telescopes | src/epiinf/util/ExponentialChangeTimesPrior.java:50-56 | with a non-zero mean the sum over the first n intervals telescopes to minus the n-th time over the mean, whatever the order of the times |
| ExponentialChangeTimesPrior.LogPMeaning | src/epiinf/util/ExponentialChangeTimesPrior.java:46-59 | the log density is 0 without change times, -t_last / mean for a non-zero mean, and not finite for a zero mean |
| ExponentialChangeTimesPrior.ZeroMeanNotFinite | src/epiinf/util/ExponentialChangeTimesPrior.java:54 | with a zero mean every partial sum of at least one term is an infinity or NaN |
| ExponentialChangeTimesPrior.ExponentialChangeTimesPrior.constructor | src/epiinf/util/ExponentialChangeTimesPrior.java:34-43 | the prior holds its two parameters and a log density of 0 |
| ExponentialChangeTimesPrior.ExponentialChangeTimesPrior.CalculateLogP | src/epiinf/util/ExponentialChangeTimesPrior.java:46-59 | the loop stores and returns the log density LogP of the change times, changing nothing else |
| ExponentialChangeTimesPrior.ExponentialChangeTimesPrior.Sample | src/epiinf/util/ExponentialChangeTimesPrior.java:72-74 | sampling always fails as not supported |
| IntRealUpDown.NewValueWithinWindow | src/epiinf/operators/IntRealUpDown.java:41 | the proposed integer lies within windowSize of the current one, and the mirrored draw 2 windowSize - d is a legal draw that moves it back |
| IntRealUpDown.Factor | src/epiinf/operators/IntRealUpDown.java:47 | the factor is the exact quotient old / new for a non-zero new value and is not finite (an infinity or NaN) for a new value of 0 |
| IntRealUpDown.RatioProduct | src/epiinf/operators/IntRealUpDown.java:47 | the factors n/m and m/n multiply to 1 |
| IntRealUpDown.TimesInverses | src/epiinf/operators/IntRealUpDown.java:47 | scaling by two factors whose product is 1 gives the value back |
| IntRealUpDown.ScaleThereAndBack | src/epiinf/operators/IntRealUpDown.java:41-49 | a move from n to m followed by the move from m back to n restores the real parameter, since both factors are finite and cancel |
| IntRealUpDown.IntRealUpDown.constructor | src/epiinf/operators/IntRealUpDown.java:32-36 | the operator holds the two parameters and the window size |
| IntRealUpDown.IntRealUpDown.Proposal | src/epiinf/operators/IntRealUpDown.java:39-52 | a new integer outside its bounds returns -infinity and changes nothing; otherwise the integer becomes the new value, the real parameter is scaled by old / new, the bounds stay as they were, and the result is 0 |
| ScaleWithInt.Vecs | src/epiinf/operators/ScaleWithInt.java:41-47 | the vectors of a parameter list, one per parameter, with its values and bounds |
| ScaleWithInt.FirstFail | src/epiinf/operators/ScaleWithInt.java:78-88 | the first entry from i on whose scaled value leaves the bounds is at i or later, or the length when there is none |
| ScaleWithInt.ScaledStep | src/epiinf/operators/ScaleWithInt.java:79-88 | visiting entry k sets it to its new value when it is not 0 and otherwise changes nothing, and no entry from k on has been touched before |
| ScaleWithInt.ListFirstFail | src/epiinf/operators/ScaleWithInt.java:77-90 | the first parameter of a list with a failing entry is at t or later, or the length when there is none |
| ScaleWithInt.RatioPositive | src/epiinf/operators/ScaleWithInt.java:74 | with n and m positive the factor m / n is positive |
| ScaleWithInt.FirstFailMeaning | src/epiinf/operators/ScaleWithInt.java:79-83 | no entry before the first failure fails, and the first failure, when there is one, does |
| ScaleWithInt.VisitedMeaning | src/epiinf/operators/ScaleWithInt.java:78-89 | a vector passes exactly when every entry that is not 0 scales to a value within the bounds; then every such entry holds its new value and 0 entries stay 0; a vector that fails has a non-zero failing entry, and it and every later entry keep their old values |
| ScaleWithInt.ListFirstFailMeaning | src/epiinf/operators/ScaleWithInt.java:77-90 | every parameter before the first failing one passes, and the first failing one, when there is one, fails |
| ScaleWithInt.MulNonZero | src/epiinf/operators/ScaleWithInt.java:80 | a non-zero entry scaled by a non-zero factor stays non-zero, so it is counted again by the inverse scaling |
| ScaleWithInt.MulDivCancel | src/epiinf/operators/ScaleWithInt.java:80-95 | dividing by f undoes multiplying by f |
| ScaleWithInt.DownUndoesUp | src/epiinf/operators/ScaleWithInt.java:77-105 | scaling every entry up by f and then down by f gives the vector back, and the up-scaled vector has its zeros exactly where the original had them |
| ScaleWithInt.NonZeroCountBound | src/epiinf/operators/ScaleWithInt.java:87 | the number of entries counted is at most the number visited, and equal exactly when none is 0 |
| ScaleWithInt.LogHRFinite | src/epiinf/operators/ScaleWithInt.java:107 | with a finite inner ratio the result is the inner ratio plus log f times up-minus-down; an inner ratio that is not finite is returned unchanged |
| ScaleWithInt.ProposalResultMeaning | src/epiinf/operators/ScaleWithInt.java:59-110 | the result is -infinity when n or m is not positive or an entry of either list would leave its bounds; otherwise it is the inner ratio plus log(m / n) times the up-minus-down count; it is finite exactly when n and m are positive, the inner ratio is finite and both lists pass |
| ScaleWithInt.ScaleVector | src/epiinf/operators/ScaleWithInt.java:78-89 | the loop over one vector reports a pass exactly when the vector passes, leaves it as the visit defines (scaled up to the first failure), keeps its bounds, and on a pass counts its non-zero entries |
| ScaleWithInt.ScaleList | src/epiinf/operators/ScaleWithInt.java:77-90 | the loop over a list passes exactly when the list does; every parameter up to and including the first failing one is visited, the rest are unchanged, bounds are kept, and on a pass the count is the number of non-zero entries |
| ScaleWithInt.ScaleWithInt.constructor | src/epiinf/operators/ScaleWithInt.java:53-56 | the operator holds the integer parameter and the two parameter lists |
| ScaleWithInt.ScaleWithInt.Proposal | src/epiinf/operators/ScaleWithInt.java:59-110 | the result is ProposalResult of the old integer n, the inner result and the new integer m; with n <= 0 nothing changes, with m <= 0 only the integer has changed, and otherwise the lists are left as the visit defines, the inverse list untouched when the first list failed |
| ScaleWithInt.ScaleWithInt.Rescale | src/epiinf/operators/ScaleWithInt.java:74-109 | with a positive factor the result is ScaledResult and the lists are left as the visit defines |
| ScaleWithInt.ScaleWithInt.ScaleLists | src/epiinf/operators/ScaleWithInt.java:76-105 | the two loops pass exactly when both lists pass, count up-minus-down on a pass, and visit the inverse list only when the first list passed |
| MultiParamDeltaExchange.FirstValues | src/epiinf/util/MultiParamDeltaExchange.java:68-69 | the values the summing loop reads: the first value of each parameter, in list order |
| MultiParamDeltaExchange.AsWrittenSkipsLast | src/epiinf/util/MultiParamDeltaExchange.java:60-63 | as written, with the first index below n - 2, no draw gives the last index as the second one, and index p1 + 1 is reached by two draws |
| MultiParamDeltaExchange.AsWrittenInRange | src/epiinf/util/MultiParamDeltaExchange.java:60-63 | as written, the second index is still a valid index and never the first one |
| MultiParamDeltaExchange.AsWrittenThreeParameters | src/epiinf/util/MultiParamDeltaExchange.java:60-63 | with three parameters and first index 0, both draws give index 1 |
| MultiParamDeltaExchange.SecondIndexMeaning | src/epiinf/util/MultiParamDeltaExchange.java:60-63 | the intended choice maps the n - 1 draws one to one onto the indices other than the first: in range, never the first, increasing in the draw, with DrawFor as its inverse |
| MultiParamDeltaExchange.SumUpdate | src/epiinf/util/MultiParamDeltaExchange.java:79-80 | replacing one value changes the sum by the difference |
| MultiParamDeltaExchange.ExchangeKeepsSum | src/epiinf/util/MultiParamDeltaExchange.java:71-80 | adding delta to one parameter and taking it from another keeps the sum of all the values |
| MultiParamDeltaExchange.DeltaRange | src/epiinf/util/MultiParamDeltaExchange.java:71 | for a draw in [0, 1) the amount moved lies in [0, sum * relWindowSize] when that window is not negative |
| MultiParamDeltaExchange.MultiParamDeltaExchange.constructor | src/epiinf/util/MultiParamDeltaExchange.java:33-40 | the operator starts with no parameters and the default window size 0.1 |
| MultiParamDeltaExchange.MultiParamDeltaExchange.InitAndValidate | src/epiinf/util/MultiParamDeltaExchange.java:46-55 | the parameter list is taken; fewer than two parameters is an error (and the window size is not read), otherwise the window size is taken |
| MultiParamDeltaExchange.MultiParamDeltaExchange.SumOfValues | src/epiinf/util/MultiParamDeltaExchange.java:67-69 | the loop returns the sum of the first values of all parameters |
| MultiParamDeltaExchange.MultiParamDeltaExchange.Proposal | src/epiinf/util/MultiParamDeltaExchange.java:58-83 | delta = sum * relWindowSize * u moves from the second index (as the source computes it) to the first; a move above the first's upper bound or below the second's lower bound returns -infinity and changes nothing; otherwise exactly those two first values change and the result is 0 |
| MultiParamDeltaExchange.MultiParamDeltaExchange.Exchange | src/epiinf/util/MultiParamDeltaExchange.java:79-80 | the two setValue calls change exactly the first value of the two parameters and nothing else |
| Parameters.RealParameter.constructor | src/epiinf/operators/IntRealUpDown.java:21-22 | a real parameter holds the given values and bounds |
| Parameters.RealParameter.Scale | src/epiinf/operators/IntRealUpDown.java:47 | scale(q) multiplies every value by q and keeps the bounds |
| Parameters.RealParameter.SetValue | src/epiinf/operators/ScaleWithInt.java:85 | setValue(i, v) changes only value i, to v |
| Parameters.IntegerParameter.constructor | src/epiinf/operators/IntRealUpDown.java:18-19 | an integer parameter holds the given value and bounds |
| Parameters.IntegerParameter.SetValue | src/epiinf/operators/IntRealUpDown.java:49 | setValue(v) sets the value and keeps the bounds |
| Parameters.ScaledBy | src/epiinf/operators/IntRealUpDown.java:47 | every value multiplied by q, the length kept |
| Parameters.DistinctAt | src/epiinf/operators/ScaleWithInt.java:77-105 | two positions of a list without repeats hold different parameters |
| Parameters.DistinctAppend | src/epiinf/operators/ScaleWithInt.java:77-105 | the two parts of a list without repeats are without repeats and share no parameter |
| Parameters.ValuesOf | src/epiinf/util/MultiParamDeltaExchange.java:42 | the values of every parameter of a list, in list order |
| EpiInfUtilityMethods.NodeLinesSnoc | src/epiinf/util/EpiInfUtilityMethods.java:54-61 | printing one more node appends exactly that node's lines |
| EpiInfUtilityMethods.NodeLinesMeaning | src/epiinf/util/EpiInfUtilityMethods.java:54-61 | every line printed belongs to a node that is printed (a branching node, or a leaf above height 0), and every such node has its line |
| EpiInfUtilityMethods.NodeLinesAscending | src/epiinf/util/EpiInfUtilityMethods.java:46-61 | for nodes sorted by height the printed times are non-decreasing and none is below the first node's height |
| EpiInfUtilityMethods.SortedSameNodes | src/epiinf/util/EpiInfUtilityMethods.java:45-52 | the sort keeps exactly the same nodes |
| EpiInfUtilityMethods.ExpoTreeFileMeaning | src/epiinf/util/EpiInfUtilityMethods.java:43-64 | the file lists one line for every printed node and no other, in ascending order of height, and ends with the origin line with code 99 |
| EpiInfUtilityMethods.WriteExpoTreeFile | src/epiinf/util/EpiInfUtilityMethods.java:43-64 | writeExpoTreeFile writes exactly the lines the file function defines |
| EpiInfUtilityMethods.WriteNodes | src/epiinf/util/EpiInfUtilityMethods.java:54-61 | the printing loop prints the lines of the nodes in their order |
| EpiInfUtilityMethods.WriteNode | src/epiinf/util/EpiInfUtilityMethods.java:55-60 | a node is printed exactly when it is not a leaf or lies above height 0 |
| EpiInfUtilityMethods.OrientedCases | src/epiinf/util/EpiInfUtilityMethods.java:84-92 | the same three cases; with occurrences and a positive mean the value is -lambda + n (log lambda - log dt) for dt > 0, +infinity for dt = 0 and NaN for dt < 0 |
| EpiInfUtilityMethods.OrientedFromPoisson | src/epiinf/util/EpiInfUtilityMethods.java:74-92 | for occurrences with a positive mean and a positive interval, the oriented density is the Poisson log probability plus the log factorial minus n log dt |
| UtilIncidenceData.AccumulateMeaning | src/epiinf/util/IncidenceData.java:48-50 | from a string, the reading loop appends every line after one space |
| UtilIncidenceData.AccumulateFromNull | src/epiinf/util/IncidenceData.java:40-50 | from null, the loop leaves null when there is no line, and otherwise builds a string that starts with "null", the way Java's string concatenation prints a null string |
| UtilIncidenceData.SourceTextMeaning | src/epiinf/util/IncidenceData.java:44-50 | the string as intended, read from a file, is its lines after the header, each after a space |
| UtilIncidenceData.FirstBad | src/epiinf/util/IncidenceData.java:70-73 | the first pair whose age or count does not parse lies between i and the number of pairs |
| UtilIncidenceData.FirstBadMeaning | src/epiinf/util/IncidenceData.java:70-73 | every pair before the first bad one parses, and the first bad one, when there is one, has an age or a count that does not parse |
| UtilIncidenceData.CheckTokensMeaning | src/epiinf/util/IncidenceData.java:60-73 | the tokens are accepted exactly when their number is even and every age and count parses, yielding half their number of pairs; an odd number is exactly the "Error parsing" case |
| UtilIncidenceData.NullFirstToken | src/epiinf/util/IncidenceData.java:50-60 | a string that starts with "null" and then a space or nothing splits into tokens whose first is "null" |
| UtilIncidenceData.AsWrittenRejectsFiles | src/epiinf/util/IncidenceData.java:40-73 | as written, every file with a line after its header is rejected: its string starts with the token "null", so the token count is odd or the first age does not parse |
| UtilIncidenceData.AsWrittenEmptyFile | src/epiinf/util/IncidenceData.java:40-59 | as written, a file with nothing after its header leaves the string null, which throws "Must supply either fileName or value input" |
| UtilIncidenceData.IncidenceData.constructor | src/epiinf/util/IncidenceData.java:31-35 | a new object holds no counts and no arrays |
| UtilIncidenceData.IncidenceData.InitAndValidateAsWritten | src/epiinf/util/IncidenceData.java:38-74 | initAndValidate, with the file string starting as null: the result and the arrays are those of parsing the string as written |
| UtilIncidenceData.IncidenceData.InitAndValidate | src/epiinf/util/IncidenceData.java:38-74 | initAndValidate with the file string starting empty: the result and the arrays are those of parsing the intended string |
| UtilIncidenceData.IncidenceData.Parse | src/epiinf/util/IncidenceData.java:57-73 | a null string throws; an odd token count throws; otherwise the arrays have one slot per pair and hold the pairs parsed before the first that does not parse, which throws |
| IncidenceData.NonComment | src/epiinf/IncidenceData.java:86-87 | no line kept starts with "#" |
| IncidenceData.GatherMeaning | src/epiinf/IncidenceData.java:81-95 | the reading loop yields the non-comment lines, less the first when the file has a header, each after a space |
| IncidenceData.Copies | src/epiinf/IncidenceData.java:127-128 | count copies of the time, none for a count that is not positive |
| IncidenceData.MaxTimeMeaning | src/epiinf/IncidenceData.java:112-125 | the latest time is defined exactly when there is a pair; it is the time of some pair and no pair's time is later |
| IncidenceData.TimesMeaning | src/epiinf/IncidenceData.java:114-129 | there is one time per sample, and each is the time of some pair |
| IncidenceData.TimesAppend | src/epiinf/IncidenceData.java:127-128 | one more pair appends count copies of its time |
| IncidenceData.Shifted | src/epiinf/IncidenceData.java:134-137 | the stream map keeps one value per time |
| IncidenceData.TimesHaveMax | src/epiinf/IncidenceData.java:124-128 | whenever there is a time, the latest time is defined |
| IncidenceData.AgesMeaning | src/epiinf/IncidenceData.java:131-138 | there is one age per sample: the times themselves when the values are ages, and otherwise each time's distance below the latest time plus the offset, never less than the offset |
| IncidenceData.LoadRejects | src/epiinf/IncidenceData.java:102-108 | with neither a value nor a file initAndValidate throws the missing-input error, and an odd number of tokens, from the value or from the file, throws "Error parsing" |
| IncidenceData.IncidenceData.constructor | src/epiinf/IncidenceData.java:68-70 | a new object has no ages |
| IncidenceData.IncidenceData.InitAndValidate | src/epiinf/IncidenceData.java:73-139 | initAndValidate succeeds exactly when Load does, setting the ages it yields; on failure it reports Load's error and keeps the old ages |
| IncidenceData.PrependNothing | src/epiinf/IncidenceData.java:114-129 | with no pairs done the parse of the rest decides the whole |
| IncidenceData.PrependOneMore | src/epiinf/IncidenceData.java:114-129 | finishing one more pair moves it from the parse of the rest to the pairs done |
| IncidenceData.CopiesStep | src/epiinf/IncidenceData.java:127-128 | one more pass of the inner loop appends one more copy of the time |
| IncidenceParameter.AtLeastZero | src/epiinf/IncidenceParameter.java:50 | Math.max(t, 0) is at least 0 and at least t, and is one of the two |
| IncidenceParameter.Values | src/epiinf/IncidenceParameter.java:45-53 | one starting value per age, in the order of the ages, each jittered with its own draw |
| IncidenceParameter.JitteredMeaning | src/epiinf/IncidenceParameter.java:47-50 | every value is at least 0; without a positive error it is the age clamped at 0; with one it is at least age - error/2 and, unless clamped to 0, below age + error/2 |
| IncidenceParameter.ValuesMeaning | src/epiinf/IncidenceParameter.java:43-55 | the values of a whole data set: one per age, each non-negative and within half the error of its age, or the age clamped at 0 |
| IncidenceParameter.IncidenceParameter.constructor | src/epiinf/IncidenceParameter.java:34-36 | a new parameter has dimension 1 and no values |
| IncidenceParameter.IncidenceParameter.InitAndValidate | src/epiinf/IncidenceParameter.java:39-58 | the dimension becomes the number of ages and the values are the jittered ages |
| IncidencePrior.Lower | src/epiinf/distribs/IncidencePrior.java:56 | one lower bound per age: the age minus the error |
| IncidencePrior.Upper | src/epiinf/distribs/IncidencePrior.java:57 | one upper bound per age: the age plus the error |
| IncidencePrior.FirstOutside | src/epiinf/distribs/IncidencePrior.java:65-71 | the index where the loop stops lies between i and the number of bounds |
| IncidencePrior.FirstOutsideMeaning | src/epiinf/distribs/IncidencePrior.java:65-71 | every value before the stop lies within its interval, and the value at the stop, when the loop stops early, does not |
| IncidencePrior.LogPMeaning | src/epiinf/distribs/IncidencePrior.java:62-74 | the log density is 0 exactly when every value lies in its closed interval, and -infinity otherwise |
| IncidencePrior.LogPOfAges | src/epiinf/distribs/IncidencePrior.java:53-74 | with the bounds built from the ages, the density is 0 exactly when every value is within the error of its age |
| IncidencePrior.OneOutsideRejects | src/epiinf/distribs/IncidencePrior.java:66-69 | one value outside its interval makes the density -infinity, whatever the others are |
| IncidencePrior.IncidencePrior.constructor | src/epiinf/distribs/IncidencePrior.java:41-44 | a new prior has no bounds and a log density of 0 |
| IncidencePrior.IncidencePrior.InitAndValidate | src/epiinf/distribs/IncidencePrior.java:47-59 | the bounds become the ages minus and plus the error, one pair per age |
| IncidencePrior.IncidencePrior.CalculateLogP | src/epiinf/distribs/IncidencePrior.java:62-74 | the loop stores and returns the log density LogP of the values, keeping the bounds |
| IncidencePrior.IncidencePrior.Sample | src/epiinf/distribs/IncidencePrior.java:86-89 | sampling always fails as not supported |
| TrajectoryFromFile.StepMeaning | src/epiinf/TrajectoryFromFile.java:27-61 | a line that loads without an exception has at least five fields; a START line adds exactly one state, at field 0's time; an END line sets only the origin; any other line adds one event, of type field 4 with multiplicity field 5, and one state at the event's time |
| TrajectoryFromFile.LoadLinesCounts | src/epiinf/TrajectoryFromFile.java:27-62 | a load without an exception adds one event per event line and one state per START line and per event line |
| TrajectoryFromFile.LoadCounts | src/epiinf/TrajectoryFromFile.java:20-62 | a file that loads completely into empty lists has the expected header, and holds one event per event line and one state per START or event line |
| TrajectoryFromFile.LoadEarlyErrors | src/epiinf/TrajectoryFromFile.java:20-24 | a file that cannot be read throws "Error reading trajectory file", and an empty file (a null header) or a wrong header throws, each before anything is loaded |
| TrajectoryFromFile.NullListsRejectStates | src/epiinf/TrajectoryFromFile.java:39-60 | as written, with lists never allocated, the first START or event line that parses throws a NullPointerException, where a load into empty lists adds a state |
| TrajectoryFromFile.TrajectoryFromFile.constructor | src/epiinf/TrajectoryFromFile.java:16 | a new object has unallocated lists and no origin |
| TrajectoryFromFile.TrajectoryFromFile.AllocateLists | src/epiinf/TrajectoryFromFile.java:10 | the inherited lists, allocated empty, with the origin kept |
| TrajectoryFromFile.TrajectoryFromFile.ReadLine | src/epiinf/TrajectoryFromFile.java:28-61 | one line changes the object and reports the error exactly as Step defines |
| TrajectoryFromFile.TrajectoryFromFile.AddStateTo | src/epiinf/TrajectoryFromFile.java:39 | stateList.add appends the state, or throws on an unallocated list |
| TrajectoryFromFile.TrajectoryFromFile.InitAndValidate | src/epiinf/TrajectoryFromFile.java:19-67 | initAndValidate as written leaves the object as Load of its current lists defines and fails exactly when Load raises, with that error |
| TrajectoryFromFile.TrajectoryFromFile.InitAndValidateIntoEmpty | src/epiinf/TrajectoryFromFile.java:19-67 | initAndValidate into empty lists leaves the object as Load from empty lists defines and fails exactly when Load raises, with that error |
| TrajectoryQueries.FirstSampleMeaning | src/epiinf/OriginFromTrajectory.java:40-46 | the search finds the first sampling event at or after from, or reports that there is none |
| TrajectoryQueries.OriginMeaning | src/epiinf/OriginFromTrajectory.java:38-50 | the origin is defined exactly when the list has a sampling event; it is then the time of the first one; otherwise it is the no-sample error |
| TrajectoryQueries.OriginIgnoresLater | src/epiinf/OriginFromTrajectory.java:40-46 | events after the first sampling event do not affect the origin |
| TrajectoryQueries.OriginFromTrajectory.constructor | src/epiinf/OriginFromTrajectory.java:33-35 | a new parameter has no value |
| TrajectoryQueries.OriginFromTrajectory.InitAndValidate | src/epiinf/OriginFromTrajectory.java:38-50 | the loop sets the value to the origin, or throws the no-sample error and keeps the value |
| TrajectoryQueries.FinalSampleOffsetAsWrittenFails | src/epiinf/FinalSampleOffsetFromTrajectory.java:41 | as written, a list whose only sample is its second event throws an index error at -1, where the intended offset is 1 |
| TrajectoryQueries.LastSampleMeaning | src/epiinf/FinalSampleOffsetFromTrajectory.java:41-47 | the search finds the last sampling event before upTo, or reports that there is none |
| TrajectoryQueries.FinalSampleOffsetMeaning | src/epiinf/FinalSampleOffsetFromTrajectory.java:38-51 | the intended offset is defined exactly when there is a sampling event; it is the origin minus the time of the last one; otherwise it is the no-sample error |
| TrajectoryQueries.FinalSampleOffsetAgreement | src/epiinf/FinalSampleOffsetFromTrajectory.java:41-46 | when the first event is the only sample, the loop as written and the intended search agree |
| TrajectoryQueries.FinalSampleOffsetFromTrajectory.constructor | src/epiinf/FinalSampleOffsetFromTrajectory.java:33-35 | a new parameter has no value |
| TrajectoryQueries.FinalSampleOffsetFromTrajectory.InitAndValidateAsWritten | src/epiinf/FinalSampleOffsetFromTrajectory.java:38-51 | the loop as written sets the value FinalSampleOffsetAsWritten gives, or fails with its error and keeps the value |
| TrajectoryQueries.FinalSampleOffsetFromTrajectory.InitAndValidate | src/epiinf/FinalSampleOffsetFromTrajectory.java:38-51 | the loop run from the last event down sets the intended offset, or throws the no-sample error and keeps the value |
| TrajectorySimulators.SIRStepMeaning | src/epiinf/EpidemicTrajectorySimulator.java:72-89 | one step from a population with an infected keeps whole, non-negative sizes and S + I + R, lowers 2S + I by one, and is an infection (S-1, I+1, only with a susceptible) or a recovery (I-1, R+1) |
| TrajectorySimulators.SIRRunUnfold | src/epiinf/EpidemicTrajectorySimulator.java:70-92 | while someone is infected the run is one recorded step at t + dt followed by the run from the state after it |
| TrajectorySimulators.SIRRunEnds | src/epiinf/EpidemicTrajectorySimulator.java:70 | the loop ends with nobody infected, after at most 2 S0 + 1 steps |
| TrajectorySimulators.SIRRunSteps | src/epiinf/EpidemicTrajectorySimulator.java:81-89 | every state of the run is a population with the starting S + I + R, and each step is an infection or a recovery of the state before it |
| TrajectorySimulators.SIRRunTimes | src/epiinf/EpidemicTrajectorySimulator.java:76-79 | the event times start after time 0 and never decrease |
| TrajectorySimulators.SIRAdvance | src/epiinf/EpidemicTrajectorySimulator.java:70-92 | after one more pass the steps recorded and the rest of the run still make up the whole run |
| TrajectorySimulators.ApplySIRStep | src/epiinf/EpidemicTrajectorySimulator.java:81-89 | the body of the loop updates the state in place as one step defines and reports the event type |
| TrajectorySimulators.EventsOf | src/epiinf/EpidemicTrajectorySimulator.java:91 | one event per step |
| TrajectorySimulators.StatesOf | src/epiinf/SIRTrajectorySimulator.java:110 | one state per step |
| TrajectorySimulators.OfAppend | src/epiinf/SIRTrajectorySimulator.java:109-110 | one more step appends its event and its state |
| TrajectorySimulators.EpidemicTrajectorySimulator.constructor | src/epiinf/EpidemicTrajectorySimulator.java:53-62 | initAndValidate keeps the rates, sets the initial state (S0, 1, 0), marks the state list dirty and holds the events of the SIR run |
| TrajectorySimulators.EpidemicTrajectorySimulator.Simulate | src/epiinf/EpidemicTrajectorySimulator.java:64-95 | simulate replaces the events by those of the SIR run from the initial state and marks the state list dirty |
| TrajectorySimulators.SIRTrajectorySimulator.constructor | src/epiinf/SIRTrajectorySimulator.java:61-77 | initAndValidate keeps the rates and holds the events and states of the SIR run from (S0, 1, 0) |
| TrajectorySimulators.SIRTrajectorySimulator.Simulate | src/epiinf/SIRTrajectorySimulator.java:79-113 | simulate clears both lists and records one event and one state per step after the initial state |
| TrajectorySimulators.SIRTrajectoryShape | src/epiinf/SIRTrajectorySimulator.java:79-113 | the state list is one longer than the event list, its last state has nobody infected and R = S0 + 1 - S, and no state has a negative S |
| TrajectorySimulators.BDStepReady | src/epiinf/BirthDeathTrajectorySimulator.java:90-115 | a step that does not stop the loop falls between the current time and the duration, is a birth or a death of the state before it, leaves I non-negative and leaves the draws ready for the next step |
| TrajectorySimulators.ApplyBDStep | src/epiinf/BirthDeathTrajectorySimulator.java:105-111 | the body of the loop updates the state in place as one birth-death step defines and reports the event type |
| TrajectorySimulators.BDRunUnfold | src/epiinf/BirthDeathTrajectorySimulator.java:90-115 | a step that does not stop the loop is recorded at t + dt and followed by the run from the state after it |
| TrajectorySimulators.BDRunTimes | src/epiinf/BirthDeathTrajectorySimulator.java:96-103 | every event falls after the start and no later than the duration, and times never decrease |
| TrajectorySimulators.BDRunSteps | src/epiinf/BirthDeathTrajectorySimulator.java:105-111 | each step is a birth (I+1) or a death (I-1) of the state before it, leaves S and R alone, and keeps I non-negative |
| TrajectorySimulators.BDAdvance | src/epiinf/BirthDeathTrajectorySimulator.java:90-115 | after one more pass the steps recorded and the rest of the run still make up the whole run |
| TrajectorySimulators.BirthDeathTrajectorySimulator.constructor | src/epiinf/BirthDeathTrajectorySimulator.java:62-79 | initAndValidate keeps the rates and duration and holds the events and states of the birth-death run from (0, 1, 0) |
| TrajectorySimulators.BirthDeathTrajectorySimulator.Simulate | src/epiinf/BirthDeathTrajectorySimulator.java:81-116 | simulate clears both lists, starts from (0, 1, 0) and records one event and one state per step until the clock passes the duration |
| TreeDensity.EventsMatchMeaning | src/epiinf/distribs/TreeDensity.java:140-154 | a tree event and a trajectory event match exactly when their times differ by at most the tolerance 1e-10 and a coalescence meets an infection or a sample a recovery; a matched trajectory event is an infection or a recovery |
| TreeDensity.Reversed | src/epiinf/distribs/TreeDensity.java:91-92 | Lists.reverse keeps the length and puts element i at position n - 1 - i |
| TreeDensity.NextMatch | src/epiinf/distribs/TreeDensity.java:100-110 | the inner while loop stops at a position from idx up to the end of the trajectory |
| TreeDensity.NextMatchMeaning | src/epiinf/distribs/TreeDensity.java:100-110 | every trajectory event passed over does not match, and the loop stops at the first that does, or at the end |
| TreeDensity.WalkToMatch | src/epiinf/distribs/TreeDensity.java:98-127 | a tree event whose match lies at j adds the no-effect terms of the infections before j (with at least two lineages), then its own effect term, and the walk goes on from j itself, so one trajectory event can match several tree events |
| TreeDensity.WalkExhausted | src/epiinf/distribs/TreeDensity.java:112-116 | a tree event with no match left makes the density -infinity, whatever came before |
| TreeDensity.SkipAllNeutral | src/epiinf/distribs/TreeDensity.java:103-107 | with at most one lineage, or no infection passed over, the passed-over events leave the density as it was |
| TreeDensity.LineagesCount | src/epiinf/distribs/TreeDensity.java:119-124 | the lineage count k after t tree events is the number of samples among them minus the number of coalescences |
| TreeDensity.TreeDensity.constructor | src/epiinf/distribs/TreeDensity.java:76-82 | initAndValidate keeps the tree, the trajectory and the origin, and starts with an empty tree event list |
| TreeDensity.TreeDensity.CalculateLogP | src/epiinf/distribs/TreeDensity.java:85-130 | calculateLogP rebuilds the tree event list (src/epiinf/distribs/TreeDensity.java:159-192) as the tree events define it, keeps the inputs, and stores and returns the walk's density against the reversed trajectory |
| TreeDensity.TreeDensity.WalkEvents | src/epiinf/distribs/TreeDensity.java:94-129 | the two nested loops compute the walk from the first tree event and trajectory position with density 0 |
| SeisDensity.Fields | debugging/SEIS_density.py:25 | strip and split on single spaces always give at least one field |
| SeisDensity.LineFields | debugging/SEIS_density.py:24-25 | one list of fields per line, none empty |
| SeisDensity.ParseLinesOk | debugging/SEIS_density.py:24-28 | the loop gets past all lines exactly when each line parses, and then gives one event per line, in file order |
| SeisDensity.ParseLinesErr | debugging/SEIS_density.py:24-28 | a failing load reports the first line that does not parse, with its error |
| SeisDensity.WithTimes | debugging/SEIS_density.py:34-35 | one time per event |
| SeisDensity.LoadTreeEvents | debugging/SEIS_density.py:21-37 | loadTreeEvents returns what Loaded defines: the parsed lines sorted and timed, or the first line's error |
| SeisDensity.ParseAll | debugging/SEIS_density.py:24-28 | the loop returns the events of all lines, or the error of the first bad line |
| SeisDensity.AssignTimes | debugging/SEIS_density.py:34-35 | the loop sets each event's time to the first event's age minus its own |
| SeisDensity.ArrangedOrder | debugging/SEIS_density.py:30-35 | the loaded events are a permutation of the parsed ones in decreasing age; the times start at 0, never decrease, are never negative and are each the oldest age minus the event's age |
| SeisDensity.ArrangedStable | debugging/SEIS_density.py:31 | events of equal age keep the order of their lines |
| SeisDensity.SumOnes | debugging/SEIS_density.py:96 | the sum of n weights that are all 1.0 is n |
| SeisDensity.ComputeLikelihoodAsWritten | debugging/SEIS_density.py:89 | as written, computeLikelihood fails with a NameError on `ones`, never imported |
| SeisDensity.ComputeLikelihood | debugging/SEIS_density.py:79-98 | with numpy in scope: at most one event gives 0; otherwise each of the n - 1 intervals adds log(mean of weights 1.0) = log 1, and with no particles the mean is NaN |
| SEISParticles.Slots | src/epiinf/distribs/SEISTreeDensity.java:195-206 | the propensity loop over lineages 0..idx gives three propensities per lineage |
| SEISParticles.ReactionAtSlot | src/epiinf/distribs/SEISTreeDensity.java:229-252 | slots 3j, 3j+1 and 3j+2 are the infection, activation and recovery of lineage j, in the order the draw is reduced |
| SEISParticles.SlotsAt | src/epiinf/distribs/SEISTreeDensity.java:195-206 | slot 3j+k holds rateInfect*S*I[j], rateActivate*E[j] and rateRecover*I[j] |
| SEISParticles.SlotReaction | src/epiinf/distribs/SEISTreeDensity.java:195-206 | every slot holds the propensity of its own reaction, on a lineage below the loop bound |
| SEISParticles.TotNSStep | src/epiinf/distribs/SEISTreeDensity.java:196-203 | lineage j adds its three propensities to aTotNS in the order they are accumulated |
| SEISParticles.PositiveFactor | src/epiinf/distribs/SEISTreeDensity.java:196 | a positive propensity with a non-negative rate has a positive count factor |
| SEISParticles.SlotsNonNeg | src/epiinf/distribs/SEISTreeDensity.java:195-206 | with non-negative rates and counts every propensity is non-negative |
| SEISParticles.React | src/epiinf/distribs/SEISTreeDensity.java:231-250 | a reaction keeps the number of lineages |
| SEISParticles.Fire | src/epiinf/distribs/SEISTreeDensity.java:227-252 | the reaction loop keeps the number of lineages |
| SEISParticles.FireChosen | src/epiinf/distribs/SEISTreeDensity.java:229-252 | when the draw falls in slot c the reaction of that slot fires |
| SEISParticles.CountUpdate | src/epiinf/distribs/SEISTreeDensity.java:231-250 | changing one lineage's count changes the host count by the difference |
| SEISParticles.ReactMeaning | src/epiinf/distribs/SEISTreeDensity.java:231-250 | infection, activation and recovery each move one host, keep S plus all E and I, and change only their own lineage |
| SEISParticles.FireMeaning | src/epiinf/distribs/SEISTreeDensity.java:227-252 | below aTotNS exactly the reaction whose interval holds the draw fires and it has positive propensity; at or above it nothing changes; the population and the lineages past idx are kept |
| SEISParticles.FireKeepsNonNeg | src/epiinf/distribs/SEISTreeDensity.java:227-252 | with non-negative rates no count becomes negative |
| SEISParticles.Run | src/epiinf/distribs/SEISTreeDensity.java:188-253 | the simulation loop keeps the number of lineages |
| SEISParticles.RunOn | src/epiinf/distribs/SEISTreeDensity.java:223-252 | a step that does not end the loop keeps the number of lineages |
| SEISParticles.Advance | src/epiinf/distribs/SEISTreeDensity.java:223-227 | advancing time and firing a reaction keeps the number of lineages |
| SEISParticles.RunStops | src/epiinf/distribs/SEISTreeDensity.java:212-221 | with no propensity (infinite waiting time) or a waiting time past tEnd the loop ends with the factor exp(-(tEnd - t) aTotSamp) |
| SEISParticles.RunOut | src/epiinf/distribs/SEISTreeDensity.java:213-214 | with a propensity and no draws left the model fails |
| SEISParticles.RunAdvances | src/epiinf/distribs/SEISTreeDensity.java:223-227 | a step before tEnd advances the loop, which goes on with the remaining draws |
| SEISParticles.RunMeaning | src/epiinf/distribs/SEISTreeDensity.java:188-253 | with no propensity the loop ends at once; a finished run keeps the population and lineages past idx and, with draws in [0, 1), non-negative counts |
| SEISParticles.FireConserves | src/epiinf/distribs/SEISTreeDensity.java:227-252 | whatever the draw, firing keeps the population and lineages past idx |
| SEISParticles.IndexOf | src/epiinf/distribs/SEISTreeDensity.java:284-285 | List.indexOf: the first position holding the node, or the length when there is none |
| SEISParticles.IndexOfFound | src/epiinf/distribs/SEISTreeDensity.java:284-285 | a node is found exactly when it is in the list |
| SEISParticles.Branch | src/epiinf/distribs/SEISTreeDensity.java:287-295 | the branching update keeps the number of lineages |
| SEISParticles.Observe | src/epiinf/distribs/SEISTreeDensity.java:255-296 | the observation step keeps the shape of the particle |
| SEISParticles.ObserveNoInfected | src/epiinf/distribs/SEISTreeDensity.java:256-259 | with no infected host on the node's lineage the weight is 0 and the state is kept |
| SEISParticles.ObserveLeaf | src/epiinf/distribs/SEISTreeDensity.java:263-279 | a leaf moves one infected host of its lineage back to S, keeping the population |
| SEISParticles.ObserveBranch | src/epiinf/distribs/SEISTreeDensity.java:281-295 | a branching node finds both children in the node list, takes one susceptible and applies the coin's update |
| SEISParticles.InfectedFractionRange | src/epiinf/distribs/SEISTreeDensity.java:257 | with E >= 0 and I >= 1 the factor I/(E+I) lies in (0, 1] |
| SEISParticles.Update | src/epiinf/distribs/SEISTreeDensity.java:172-299 | updateParticle keeps the shape of the particle when it finishes |
| SEISParticles.MeanOf | src/epiinf/distribs/SEISTreeDensity.java:152 | the mean of no weights is NaN (0/0) |
| SEISParticles.RandomChoicePDF | src/epiinf/distribs/SEISTreeDensity.java:156 | randomChoicePDF returns a particle index or the "throws" marker |
| SEISParticles.RandomChoiceMeaning | src/epiinf/distribs/SEISTreeDensity.java:156 | with a positive total the chosen particle's share of the total holds the scaled draw and its weight is positive; with total 0 the library throws |
| SEISParticles.Choices | src/epiinf/distribs/SEISTreeDensity.java:155-158 | one choice per resampled slot |
| SEISParticles.ChoicesAt | src/epiinf/distribs/SEISTreeDensity.java:155-158 | slot p holds randomChoicePDF of the slot's own draw |
| SEISParticles.ZeroWeightsThrow | src/epiinf/distribs/SEISTreeDensity.java:156 | with every weight 0 the first resampling already throws |
| SEISParticles.TotalOfZeros | src/epiinf/distribs/SEISTreeDensity.java:156 | partial sums of zero weights are 0 |
| SEISParticles.Interval | src/epiinf/distribs/SEISTreeDensity.java:137-162 | one interval keeps the number of particles and their shape |
| SEISParticles.Filter | src/epiinf/distribs/SEISTreeDensity.java:137-163 | the filter keeps the number of particles |
| SEISParticles.FilterOn | src/epiinf/distribs/SEISTreeDensity.java:137-163 | an interval followed by the rest keeps the number of particles |
| SEISParticles.FilterStep | src/epiinf/distribs/SEISTreeDensity.java:137-163 | an interval that succeeds hands its states and log density to the next interval |
| SEISParticles.FilterStop | src/epiinf/distribs/SEISTreeDensity.java:137-163 | an interval that fails stops the filter |
| SEISParticles.Reset | src/epiinf/distribs/SEISTreeDensity.java:131-135 | the reset keeps the number of particles |
| SEISParticles.ResetMeaning | src/epiinf/distribs/SEISTreeDensity.java:131-135 | every particle gets S = S0, E[0] = 1, I[0] = 0, and the other lineages keep their counts |
| SEISParticles.TreeNodesMeaning | src/epiinf/distribs/SEISTreeDensity.java:120-127 | the sorted node list is a permutation of the nodes, highest first, and still a tree |
| SEISParticles.TreeNodesTree | src/epiinf/distribs/SEISTreeDensity.java:120-127 | the sorted list has every node and is still a tree |
| SEISParticles.Contemporaneous | src/epiinf/distribs/SEISTreeDensity.java:97-103 | the count of leaves at height 0 is at most the node count |
| SEISParticles.ContemporaneousMeaning | src/epiinf/distribs/SEISTreeDensity.java:97-103 | the count is 0 exactly when every leaf is above 0, and the node count exactly when every node is such a leaf |
| SEISParticles.LogPFinished | src/epiinf/distribs/SEISTreeDensity.java:116-170 | a finished filter gives its log density plus lnGamma(nContemp + 1) |
| SEISParticles.LogPFailed | src/epiinf/distribs/SEISTreeDensity.java:116-170 | a failed filter fails the density |
| SEISParticles.ZeroWeightsReject | src/epiinf/distribs/SEISTreeDensity.java:152 | with every weight 0 the mean is 0 and the log density becomes negative infinity |
| SEISParticles.SumOfZeros | src/epiinf/distribs/SEISTreeDensity.java:152 | the sum of zero weights is 0 |
| SEISTreeDensity.Particle.constructor | src/epiinf/distribs/SEISTreeDensity.java:71-75 | a new particle has S = 0 and zero E and I on every lineage |
| SEISTreeDensity.Particle.Apply | src/epiinf/distribs/SEISTreeDensity.java:231-250 | applying a reaction in place leaves the particle in the state the reaction gives |
| SEISTreeDensity.Particle.ResetCounts | src/epiinf/distribs/SEISTreeDensity.java:131-135 | the particle gets S0 susceptibles, E[0] = 1 and I[0] = 0, other lineages unchanged |
| SEISTreeDensity.Particle.GetCopy | src/epiinf/distribs/SEISTreeDensity.java:77-85 | getCopy returns a new particle with the same counts |
| SEISTreeDensity.CountContemporaneous | src/epiinf/distribs/SEISTreeDensity.java:97-103 | the loop counts the leaves whose height is not above 0 |
| SEISTreeDensity.NewParticles | src/epiinf/distribs/SEISTreeDensity.java:109-113 | n new, distinct particles with no hosts and room for every node's lineage |
| SEISTreeDensity.SEISTreeDensity.constructor | src/epiinf/distribs/SEISTreeDensity.java:89-114 | initAndValidate counts the present-day leaves, allocates the propensity arrays and nParticles empty particles |
| SEISTreeDensity.SEISTreeDensity.UpdatePropensities | src/epiinf/distribs/SEISTreeDensity.java:192-206 | the propensity arrays, aTotNS and aTotSamp hold the propensities of lineages 0..idx of the particle's state |
| SEISTreeDensity.SEISTreeDensity.FireReaction | src/epiinf/distribs/SEISTreeDensity.java:227-252 | the reaction loop leaves the particle in the state the chosen reaction gives, or unchanged when the draw passes every slot |
| SEISTreeDensity.SEISTreeDensity.Simulate | src/epiinf/distribs/SEISTreeDensity.java:183-253 | the simulation loop fails exactly when its draws run out; otherwise the particle and the weight are those of the loop's value model |
| SEISTreeDensity.SEISTreeDensity.AdvanceStep | src/epiinf/distribs/SEISTreeDensity.java:223-252 | one step moves the time on, multiplies the weight by exp(-(tEnd - t) aTotSamp) and fires the chosen reaction |
| SEISTreeDensity.SEISTreeDensity.ObserveEvent | src/epiinf/distribs/SEISTreeDensity.java:255-298 | the particle and weight become those of the observation of a leaf or a branching node |
| SEISTreeDensity.SEISTreeDensity.UpdateParticle | src/epiinf/distribs/SEISTreeDensity.java:172-299 | updateParticle fails exactly when the draws run out, and otherwise gives the value model's particle and weight |
| SEISTreeDensity.SEISTreeDensity.UpdateOne | src/epiinf/distribs/SEISTreeDensity.java:148-149 | particle p is updated and its weight stored in slot p; no other particle or weight changes |
| SEISTreeDensity.SEISTreeDensity.UpdateAll | src/epiinf/distribs/SEISTreeDensity.java:148-149 | every particle is updated; success exactly when all updates succeed, and then particles and weights are the updated ones |
| SEISTreeDensity.SEISTreeDensity.ResetAll | src/epiinf/distribs/SEISTreeDensity.java:131-135 | every particle is reset to S0, E[0] = 1, I[0] = 0 |
| SEISTreeDensity.SEISTreeDensity.Resample | src/epiinf/distribs/SEISTreeDensity.java:154-163 | slot p gets a fresh copy of the particle randomChoicePDF picks with its draw and the arrays swap; a library throw leaves the arrays unswapped |
| SEISTreeDensity.SEISTreeDensity.RunInterval | src/epiinf/distribs/SEISTreeDensity.java:137-163 | one interval: update, log-mean weight added, resampling; fails exactly when the value model's interval fails |
| SEISTreeDensity.SEISTreeDensity.CalculateLogP | src/epiinf/distribs/SEISTreeDensity.java:116-170 | calculateLogP gives the value model's particles and log density: sorted nodes, reset, filter, plus lnGamma(nContemp + 1) for the count of present-day leaves stored at construction, whatever the current tree |
| SEISTreeDensity.SEISTreeDensity.Filtering | src/epiinf/distribs/SEISTreeDensity.java:120-163 | the nodes sorted highest first, the particles reset, then the filter over all intervals |
| SEISTreeDensity.SEISTreeDensity.RunFilter | src/epiinf/distribs/SEISTreeDensity.java:137-163 | the interval loop ends where the value model's filter ends, or fails where it fails |
| SMCTreeDensity.TableAgrees | src/epiinf/distribs/SMCTreeDensity.java:199-202 | the propensity map the model keeps gives each of infection, recovery and sampling its propensity, and getTotalPropensity is their sum |
| SMCTreeDensity.KeyWeightsTotal | src/epiinf/distribs/SMCTreeDensity.java:209-213 | in whatever order the key set lists the three types, their propensities add up to getTotalPropensity |
| SMCTreeDensity.ChooseScaled | src/epiinf/distribs/SMCTreeDensity.java:209-219 | a draw in [0, 1) times a positive total picks a slot of positive weight whose interval holds it |
| SMCTreeDensity.PickedType | src/epiinf/distribs/SMCTreeDensity.java:209-219 | the picked type is one of the keys, or none (a null type) |
| SMCTreeDensity.PropensitiesNonNegative | src/epiinf/distribs/SMCTreeDensity.java:199 | with non-negative rates and counts no propensity is negative |
| SMCTreeDensity.PickedTypeMeaning | src/epiinf/distribs/SMCTreeDensity.java:209-219 | with a positive total, a draw in [0, 1) always picks a type of positive propensity, the one whose share of the total holds the scaled draw |
| SMCTreeDensity.Finish | src/epiinf/distribs/SMCTreeDensity.java:240-273 | the tree event ends the interval with an infection for a coalescence and a sample for a leaf |
| SMCTreeDensity.RunStops | src/epiinf/distribs/SMCTreeDensity.java:201-207 | with no propensity (time becomes infinite) or a waiting time past the tree event the loop ends in the tree event |
| SMCTreeDensity.RunKills | src/epiinf/distribs/SMCTreeDensity.java:221-232 | an event that leaves fewer infecteds than lineages, or a sample, gives weight 0 at once |
| SMCTreeDensity.RunAdvances | src/epiinf/distribs/SMCTreeDensity.java:221-237 | an event that does not kill the particle is applied, its probability of no coalescence is multiplied in for an infection, and the loop goes on |
| SMCTreeDensity.RunConserves | src/epiinf/distribs/SMCTreeDensity.java:198-251 | updateParticle keeps S + I + R, never adds susceptibles and never removes recovered hosts |
| SMCTreeDensity.Updates | src/epiinf/distribs/SMCTreeDensity.java:106-120 | one update per particle |
| SMCTreeDensity.UpdatesAt | src/epiinf/distribs/SMCTreeDensity.java:113 | particle p's update is updateParticle of its own state, from the interval start with weight 1 |
| SMCTreeDensity.Resampled | src/epiinf/distribs/SMCTreeDensity.java:132-147 | one copied state per particle slot |
| SMCTreeDensity.ResampledAt | src/epiinf/distribs/SMCTreeDensity.java:133-146 | slot p holds a copy of the state its draw chooses |
| SMCTreeDensity.ResampleMeaning | src/epiinf/distribs/SMCTreeDensity.java:128-147 | with a positive sum the resampling never reaches the pChoice == nParticles case, and each slot copies a particle of positive weight whose share holds the draw |
| SMCTreeDensity.ResampleSome | src/epiinf/distribs/SMCTreeDensity.java:133-146 | with a positive sum and uniform draws every slot is filled |
| SMCTreeDensity.Interval | src/epiinf/distribs/SMCTreeDensity.java:104-163 | a running interval keeps nParticles states and weights |
| SMCTreeDensity.Start | src/epiinf/distribs/SMCTreeDensity.java:90-94 | calculateLogP starts with nParticles initial states |
| SMCTreeDensity.Filter | src/epiinf/distribs/SMCTreeDensity.java:96-164 | a running filter keeps nParticles states and, after an event, nParticles weights |
| SMCTreeDensity.LogPAsWritten | src/epiinf/distribs/SMCTreeDensity.java:128-129 | once stopped the returned value is negative infinity |
| SMCTreeDensity.LogP | src/epiinf/distribs/SMCTreeDensity.java:126-129 | once stopped the accumulated estimate's value is negative infinity |
| SMCTreeDensity.LineagesMeaning | src/epiinf/distribs/SMCTreeDensity.java:154-161 | k is 1 plus coalescences minus leaves seen, and t is the time of the last tree event |
| SMCTreeDensity.ZeroSumRejects | src/epiinf/distribs/SMCTreeDensity.java:125-129 | a sum of weights that is not positive stops the filter with the estimate plus log(sum / n); the value returned is negative infinity |
| SMCTreeDensity.FinalIgnoresAccumulated | src/epiinf/distribs/SMCTreeDensity.java:169-174 | the returned log(sum / n) of the last interval equals the accumulated estimate less the earlier intervals' part, so the two differ whenever that part is finite and not 0 |
| SMCTreeDensity.UpdatesSettled | src/epiinf/distribs/SMCTreeDensity.java:106-120 | once one particle's update fails the interval's update fails |
| SMCTreeDensity.UpdatesStep | src/epiinf/distribs/SMCTreeDensity.java:106-120 | updating one more particle appends its result |
| SMCTreeDensity.WeightsAppend | src/epiinf/distribs/SMCTreeDensity.java:115-116 | adding a weight extends the list and the sum by it |
| SMCTreeDensity.IntervalOutcome | src/epiinf/distribs/SMCTreeDensity.java:104-163 | an interval fails with its update; a sum that is not positive stops it with log(sum / n) added; else the resampling decides, and t and k move on |
| SMCTreeDensity.FilterStep | src/epiinf/distribs/SMCTreeDensity.java:96-164 | the filter over one more event is that event's interval after the earlier ones |
| SMCTreeDensity.ResampledSettled | src/epiinf/distribs/SMCTreeDensity.java:133-146 | once a slot's draw chooses no particle, resampling more slots fails too |
| SMCTreeDensity.FilterSettled | src/epiinf/distribs/SMCTreeDensity.java:128-129 | once the filter fails or stops, later events change nothing |
| SMCTreeDensity.ChooseSlot | src/epiinf/distribs/SMCTreeDensity.java:137-141 | the subtract-and-test loop ends at the slot the selection function gives |
| SMCTreeDensity.SumOfWeights | src/epiinf/distribs/SMCTreeDensity.java:169-171 | the loop sum is the total of the weights |
| SMCTreeDensity.SMCTreeDensity.constructor | src/epiinf/distribs/SMCTreeDensity.java:70-74 | initAndValidate keeps the model, the event list and the particle count |
| SMCTreeDensity.SMCTreeDensity.CalculatePropensities | src/epiinf/distribs/SMCTreeDensity.java:199 | the model's propensity map and total are those of the state |
| SMCTreeDensity.SMCTreeDensity.PickEventType | src/epiinf/distribs/SMCTreeDensity.java:209-219 | the key-set loop picks the type the selection on the key order gives |
| SMCTreeDensity.SMCTreeDensity.UpdateParticle | src/epiinf/distribs/SMCTreeDensity.java:186-251 | updateParticle fails exactly when the value model does, and otherwise leaves the state and returns the weight it gives |
| SMCTreeDensity.SMCTreeDensity.Pass | src/epiinf/distribs/SMCTreeDensity.java:198-237 | one pass ends, fails, kills the particle or continues, each as the value model's loop says |
| SMCTreeDensity.SMCTreeDensity.FinishInterval | src/epiinf/distribs/SMCTreeDensity.java:240-251 | the tree event's increment and weight are those of the value model |
| SMCTreeDensity.SMCTreeDensity.InitialParticles | src/epiinf/distribs/SMCTreeDensity.java:90-91 | nParticles new, distinct initial states |
| SMCTreeDensity.SMCTreeDensity.UpdateAll | src/epiinf/distribs/SMCTreeDensity.java:104-120 | each state updated in place, weights listed and summed; fails exactly when some update fails |
| SMCTreeDensity.SMCTreeDensity.Resample | src/epiinf/distribs/SMCTreeDensity.java:132-147 | each slot gets a fresh copy of the chosen state; fails exactly when a draw chooses no particle |
| SMCTreeDensity.SMCTreeDensity.CalculateLogP | src/epiinf/distribs/SMCTreeDensity.java:76-175 | calculateLogP returns log(mean of the last weights) of the filter, or negative infinity once stopped, and fails exactly when the filter does |
| SMCTreeDensity.SMCTreeDensity.RunEvents | src/epiinf/distribs/SMCTreeDensity.java:96-164 | the event loop ends as the value model's filter does, with its estimate and last weights |
| SMCTreeDensity.SMCTreeDensity.RunInterval | src/epiinf/distribs/SMCTreeDensity.java:104-163 | one pass of the event loop is the value model's interval |
| NewickLexer.LabelRun | debugging/Tree.py:173 | the bare-label pattern [a-zA-Z0-9_.-]+ matches a run that stays inside the text |
| NewickLexer.NextQuote | debugging/Tree.py:171-172 | the closing quote found lies at or after the start and inside the text |
| NewickLexer.QuotedRun | debugging/Tree.py:171-172 | a quoted-string match stays inside the text |
| NewickLexer.MatchLength | debugging/Tree.py:190 | re.match of a pattern at index idx matches a run inside the text, or nothing |
| NewickLexer.FirstMatchFrom | debugging/Tree.py:189-209 | the first pattern in list order that matches gives a non-empty match of that pattern |
| NewickLexer.LexFrom | debugging/Tree.py:185-212 | an error names a position inside the text and the character there |
| NewickLexer.MatchAt | debugging/Tree.py:189-209 | the inner loop stops at the first pattern in list order that matches |
| NewickLexer.Tokenize | debugging/Tree.py:181-212 | the lexer loop gives the tokens, or the error, of the lexing function |
| NewickLexer.Opener | debugging/Tree.py:167-179 | the pattern a character can start is one it opens, and there is none exactly when the character starts no token |
| NewickLexer.MatchOpens | debugging/Tree.py:167-179 | a pattern matches only where the current character opens it |
| NewickLexer.OpenerUnique | debugging/Tree.py:167-179 | no character opens two patterns |
| NewickLexer.ScanFindsOnly | debugging/Tree.py:189-209 | when only one pattern matches, the scan finds it from any earlier place |
| NewickLexer.ScanFindsNone | debugging/Tree.py:189-211 | when no pattern matches, the scan finds nothing |
| NewickLexer.PatternIndex | debugging/Tree.py:167-179 | every pattern has a place in the token list |
| NewickLexer.ScanIsOpenerMatch | debugging/Tree.py:167-209 | the order of the token list never decides between two matches: the first match is the one pattern the character opens |
| NewickLexer.MatchLengthExtend | debugging/Tree.py:190 | a match inside a text is the same match inside any extension of it at a token boundary |
| NewickLexer.FirstMatchExtend | debugging/Tree.py:189-209 | the first match inside a text is the first match inside any extension at a boundary |
| NewickLexer.LexFromStep | debugging/Tree.py:185-209 | one lexer step emits the token of the first match and goes on after it |
| NewickLexer.LexExtend | debugging/Tree.py:185-212 | lexing an extension at a boundary emits the tokens of the prefix and carries on after it |
| NewickLexer.LexRejectsAt | debugging/Tree.py:211-212 | after a prefix that lexes, a character that starts no token raises ParseError with that position and character |
| NewickLexer.LexRejectsBlank | debugging/Tree.py:211-212 | whitespace between tokens is rejected at its position |
| NewickLexer.LexErrorIsFirstFailure | debugging/Tree.py:211-212 | the error is reported at a position where no pattern matches |
| NewickLexer.TokensCarryValues | debugging/Tree.py:196-206 | only STRING tokens carry a value, the others None |
| NewickLexer.StringValueStrips | debugging/Tree.py:196-204 | a quoted lexeme longer than 2 loses its quotes; shorter or unquoted lexemes are kept verbatim |
| NewickParser.LastValue | debugging/Tree.py:159-160 | getLastValue gives the value before the cursor, and fails past the end or on an empty list |
| NewickParser.Put | debugging/Tree.py:278 | storing an annotation adds at most one entry |
| NewickParser.PutLookup | debugging/Tree.py:278 | after node.annotations[key] = value the key holds the new value and every other key keeps its own |
| NewickParser.PutKeepsPlace | debugging/Tree.py:278 | the dictionary keeps its size exactly when the key was present, and other entries keep their places |
| NewickParser.PutKeys | debugging/Tree.py:278 | the keys after a store are the old keys plus the new one |
| NewickParser.PutDistinct | debugging/Tree.py:278 | stores keep the keys distinct |
| NewickParser.ParseN | debugging/Tree.py:235-246 | ruleN moves the cursor forward and stays inside the tokens |
| NewickParser.ParseS | debugging/Tree.py:248-253 | ruleS moves the cursor forward and stays inside the tokens |
| NewickParser.ParseQ | debugging/Tree.py:256-259 | ruleQ moves the cursor forward and stays inside the tokens |
| NewickParser.ParseL | debugging/Tree.py:261-263 | ruleL moves the cursor forward and stays inside the tokens |
| NewickParser.ParseA | debugging/Tree.py:265-269 | ruleA moves the cursor forward and stays inside the tokens |
| NewickParser.ParseC | debugging/Tree.py:271-278 | ruleC consumes exactly three tokens |
| NewickParser.ParseD | debugging/Tree.py:280-283 | ruleD moves the cursor forward and stays inside the tokens |
| NewickParser.ParseB | debugging/Tree.py:285-288 | ruleB moves the cursor forward and stays inside the tokens |
| NewickParser.ParseContext.constructor | debugging/Tree.py:144-147 | the context starts at index 0 on the token list |
| NewickParser.ParseContext.AcceptToken | debugging/Tree.py:149-157 | the cursor update and result are those of acceptToken; on failure or mismatch the cursor stays |
| NewickParser.ParseContext.GetLastValue | debugging/Tree.py:159-160 | the value before the cursor |
| NewickParser.RuleN | debugging/Tree.py:235-246 | ruleN on the context builds the node and moves the cursor as the parse function says |
| NewickParser.RuleS | debugging/Tree.py:248-253 | ruleS on the context agrees with the parse function |
| NewickParser.RuleQ | debugging/Tree.py:256-259 | ruleQ on the context agrees with the parse function |
| NewickParser.RuleL | debugging/Tree.py:261-263 | ruleL on the context agrees with the parse function |
| NewickParser.RuleA | debugging/Tree.py:265-269 | ruleA on the context agrees with the parse function |
| NewickParser.RuleC | debugging/Tree.py:271-278 | ruleC on the context agrees with the parse function |
| NewickParser.RuleD | debugging/Tree.py:280-283 | ruleD on the context agrees with the parse function |
| NewickParser.RuleB | debugging/Tree.py:285-288 | ruleB on the context agrees with the parse function |
| NewickTree.ComputeTimesMeaning | debugging/Tree.py:83-89 | the time pass fails exactly when some node has no branch length; otherwise it keeps the tree and sets each time to the parent's time plus the branch length |
| NewickTree.AllNodes | debugging/Tree.py:27-34 | getAllChildren starts with the node itself |
| NewickTree.LeafFilter | debugging/Tree.py:36-45 | the filtered nodes are leaves taken from the list |
| NewickTree.LeavesInPreorder | debugging/Tree.py:36-45 | getLeaves lists exactly the leaves of getAllChildren, in the same order |
| NewickTree.MaxTimeOfIsMax | debugging/Tree.py:224-226 | maxTime starts at 0.0 and is at least every node's time, and is 0 or some node's time |
| NewickTree.MaxTime | debugging/Tree.py:224-226 | the maxTime loop computes the largest time, starting from 0.0 |
| NewickTree.LoadFromString | debugging/Tree.py:163-233 | loadFromString lexes, parses with a cursor, requires the closing ';' and runs the time and height passes, as the value model says |
| NewickTree.AllNodesSetHeights | debugging/Tree.py:228-229 | the height pass touches every node of getAllChildren and nothing else |
| NewickTree.TimedHeightSteps | debugging/Tree.py:228-229 | after the height pass every child lies its branch length below its parent |
| NewickTree.PlacedHeights | debugging/Tree.py:224-229 | every height is maxTime - time and not negative, and some node has height 0 once some time is not negative |
| NewickTree.LoadedTreeShape | debugging/Tree.py:220-231 | a loaded tree has times running down from 0.0, non-negative heights, a node at height 0 when some time is not negative, children a branch length below their parent, and origin = root height + root branch length |
| NewickTree.SetHeightsKeepsTimes | debugging/Tree.py:228-229 | the height pass does not change any time |
| NewickTree.TreeOfStringFails | debugging/Tree.py:103-119 | as written, Tree(str) stores the text in newickStr and parses the empty newickString, failing at its first token |
| NewickTree.CorrectedTreeOf | debugging/Tree.py:97-119 | with the typo corrected, a string argument is parsed by loadFromString; files and nodes are as written |
| NewickRoundTrip.LexText | debugging/Tree.py:167-212 | the text of valid pieces, with no two bare words adjacent, lexes to exactly their tokens |
| NewickRoundTrip.NodeText | debugging/Tree.py:47-81 | the pieces of a node spell out what getNewick returns: children in parentheses, label, annotations [&k="v",...] and ':' with the edge length |
| NewickRoundTrip.NodeGood | debugging/Tree.py:47-81 | the pieces getNewick prints for a printable node are valid and no two bare words meet |
| NewickRoundTrip.PutAllFresh | debugging/Tree.py:278-283 | storing entries with distinct fresh keys appends them in order |
| NewickRoundTrip.ParseABack | debugging/Tree.py:62-71 | ruleA reads the printed annotations back as the same ordered dictionary |
| NewickRoundTrip.ParseLBack | debugging/Tree.py:59-60 | ruleL reads the printed label back |
| NewickRoundTrip.ParseBBack | debugging/Tree.py:73-79 | ruleB reads the printed edge back as the length parent height - height, or origin - height at the root |
| NewickRoundTrip.ParseNodeBack | debugging/Tree.py:47-81 | ruleN reads the tokens of a printed node back as that node, each edge as its length |
| NewickRoundTrip.ParseSBack | debugging/Tree.py:50-57 | ruleS reads back a printed list of children |
| NewickRoundTrip.ParseQBack | debugging/Tree.py:53-56 | ruleQ reads back the printed further children |
| NewickRoundTrip.ReparsedPlaced | debugging/Tree.py:222-229 | heights placed from the maximum time give every branch length back as a height difference |
| NewickRoundTrip.ReprReads | debugging/Tree.py:122-123 | the printed form of a printable tree lexes, and ruleN reads it back with every length recomputed from the heights, followed by ';' |
| NewickRoundTrip.LoadParsed | debugging/Tree.py:216-233 | once the text lexes and reads a node followed by ';', loading is the time and height passes on it |
| NewickRoundTrip.RoundTrip | debugging/Tree.py:122-123 | loading the printed form of a loaded tree gives the same tree back, when labels and annotations print as tokens and numbers read back exactly |
| Text.SplitWhere | debugging/SEIS_density.py:25 | a split gives at least one piece and no piece holds a separator |
| Text.PySplit | debugging/SEIS_density.py:25 | line.split(" ") gives at least one piece and no piece holds the separator |
| Text.PySplitJoin | debugging/SEIS_density.py:25 | joining the pieces of a split with the separator gives the string back |
| Text.SplitWhereFirst | debugging/SEIS_density.py:25 | a split begins with the text up to the first separator |
| Text.PySplitOfJoin | debugging/SEIS_density.py:25 | splitting pieces joined on a separator none of them holds gives them back |
| Text.DropTrailingEmpty | src/epiinf/TrajectoryFromFile.java:28 | only trailing empty pieces are dropped, and the last piece kept is not empty |
| Text.JavaSplit | src/epiinf/TrajectoryFromFile.java:28 | split(" ") of a string without a space is [s], and no piece holds the separator |
| Text.TrimStartWhere | src/epiinf/util/IncidenceData.java:60 | trimming the start drops exactly a prefix of stripped characters |
| Text.TrimEndWhere | src/epiinf/util/IncidenceData.java:60 | trimming the end drops exactly a suffix of stripped characters |
| Text.JavaTrim | src/epiinf/util/IncidenceData.java:60 | String.trim leaves a string that is empty or starts and ends above U+0020 |
| Text.PyStrip | debugging/SEIS_density.py:25 | str.strip() leaves a string that is empty or starts and ends with a non-space |
| Text.NonEmpty | src/epiinf/util/IncidenceData.java:60 | the kept pieces are non-empty pieces of the list, and a list starting with a non-empty piece keeps one |
| Text.NonEmptyChars | src/epiinf/util/IncidenceData.java:60 | keeping the non-empty pieces keeps a property of every character |
| Text.JavaTrimSplitSpaces | src/epiinf/util/IncidenceData.java:60 | trim().split("\\s+") gives at least one piece and no piece holds a whitespace character |
| Text.SplitTrimmed | src/epiinf/util/IncidenceData.java:60 | the \s+ split of a trimmed string gives whitespace-free pieces |
| Text.SpaceWords | src/epiinf/util/IncidenceData.java:60 | the maximal runs of non-space characters hold no space |
| Text.FirstWord | src/epiinf/util/IncidenceData.java:60 | a word above U+0020 followed by a space or nothing is the first token of the trimmed split |
| Text.TrimmedStart | src/epiinf/util/IncidenceData.java:60 | trimming a string that starts with such a word keeps the word and the space after it |
| Text.TrimStartKeeps | src/epiinf/util/IncidenceData.java:60 | a string starting above U+0020 loses nothing at its start |
| Text.TrimEndKeepsPrefix | src/epiinf/util/IncidenceData.java:60 | trimming the end keeps every prefix that ends above U+0020 |
| Text.FirstWordOfTrimmed | src/epiinf/util/IncidenceData.java:60 | the trimmed split of the word and a space followed by more starts with the word |
| Text.ToLowerChar | debugging/Tree.py:111 | lower() maps A-Z to a-z and keeps every other character |
| Text.ToLower | debugging/Tree.py:111 | lower() maps the string character by character |
| Text.Find | debugging/Tree.py:114 | str.find gives -1 exactly when the character is absent, else its first index |
| Text.NatToString | src/epiinf/EpidemicState.java:66 | the decimal digits of a non-negative long |
| Text.IntToString | src/epiinf/EpidemicState.java:66 | a long prints as a non-empty string without spaces |
| Text.NatToStringValue | src/epiinf/EpidemicState.java:66 | the digits read back as the number |
| NewickRoundTrip.ParseCBack | debugging/Tree.py:271-278 | ruleC reads a printed key="value" pair back and stores it |
| NewickRoundTrip.ParseDBack | debugging/Tree.py:280-283 | ruleD reads printed further pairs back and stores them in order |
| NewickRoundTrip.ParsePairsBack | debugging/Tree.py:265-283 | ruleA reads printed non-empty annotations back as the same dictionary |
| NewickRoundTrip.LexPieces | debugging/Tree.py:185-209 | a run of valid, separated pieces lexes to their tokens |

## Left out

- Floating point. A finite double is an exact real (`Doubles.Double.Finite`), so IEEE rounding, overflow to infinity and underflow are not modelled. Only the infinities and NaN that the code returns or produces are kept as their own values.
- EpidemicState.TruncateToLong: models the `(long)` cast only for values that fit in a `long`, truncating toward zero. The cast's saturation at the `long` range ends and its treatment of NaN are not modelled, because compartment sizes are small whole numbers.
- NewickParser.ParseN: the number parser (Python `float()`) is a parameter returning an optional real. The infinities and NaN that `float("inf")` and `float("nan")` return are not modelled.
- IntRealUpDown.IntRealUpDown.Proposal: when the new integer value is 0, the source scales the real parameter by `old/0` without a guard (src/epiinf/operators/IntRealUpDown.java:47). There the factor is an infinity or NaN, and the model leaves the real values unchanged. `IntRealUpDown.Factor` states that this factor is not finite.
- Parameters.RealParameter.Scale: BEAST's `scale` checks the scaled values against the bounds and throws. That check is not modelled: the model always applies the scaling.
- ScaleWithInt.ScaleWithInt.Proposal: requires that no parameter appear twice across `realParameters` and `realParametersInverse` (`Distinct`), so a parameter listed in both lists, which the source scales up and then down in place, is not modelled.
- MultiParamDeltaExchange.MultiParamDeltaExchange.Proposal: requires the parameters to be distinct objects (`Distinct`), so a parameter listed twice, which the source updates twice through aliasing, is not modelled. It also requires every parameter to hold at least one value (`NonEmpty`); an empty parameter makes the source throw from `getValue()`, and that exception is not modelled.
- Randomness. Every draw of `Randomizer` is a parameter given with its range. In the SEIS and SMC particle filters a run whose sequence of draws runs out is a failure (`None`). The SIR and birth-death trajectory simulators instead require enough draws for the whole run (`SIRReady`, `BDReady` in the TrajectorySimulators module), so a short draw sequence is outside what they model. The sampling distribution of the simulations is therefore not modelled, only what they do with given draws.
- Library mathematics. `Math.log`, `Math.exp`, `lnGamma`, `Double.parseDouble`, `Integer.parseInt` and date parsing are function parameters with no properties assumed, beyond the argument ranges at the points where the code uses them.
- Input and output:
  - Reading files is not modelled: a file is the sequence of its lines, and an unreadable file is `None`.
  - Writing files (`dumpTrajectory`, the expoTree file) is not modelled: the model produces the text as lines.
  - The SMC debug output (`SMCdebug.json`) and the `System.err` messages have no effect in the model.
- How Java turns a double into text (`Double.toString`) is not modelled: the expoTree file is a sequence of (time, code) lines held as values, and a trajectory record prints only the truncated integers.
- The iteration order of the `HashMap` of propensities in SMCTreeDensity is not modelled: it is a parameter `keys` constrained only to list each event type once.
- Sorting. The `compareTo` of the event classes lies outside the modelled files, so events are taken to sort by ascending time. The library sorts are modelled as stable sorts.
- Arrays. The SEIS particles' per-lineage count arrays are sequence fields, one per particle, because no two particles share them. The one-element arrays `S[0]`, `I[0]`, `R[0]` of SIRTrajectorySimulator are scalar counts.
- BEAST framework behaviour:
  - Input validation by the framework is not modelled.
  - Operator tuning is not modelled.
  - XML wiring is not modelled.
  - `store`/`restore` is not modelled beyond what TreeEventList does itself.
  - The BEAUti input editors and the GUI are not part of this model.
- SMCTreeDensity.SMCTreeDensity.constructor: the model input is an `SIRModelSampling`. SMCTreeDensity.java:60 declares a general `EpidemicModel`, but the filter calls `getProbNoCoalescence` (SMCTreeDensity.java:229), which only SIRModelSampling defines (src/epiinf/models/SIRModelSampling.java:89). Other models are not modelled.
- SMCTreeDensity.Weigh: `particleState.isValid()` (SMCTreeDensity.java:270) is a predicate parameter `valid`. Its definition lies outside the modelled files, so no property of it is assumed.
- NewickParser.Put, NewickParser.PutKeepsPlace, NewickTree.AnnotationsText, NewickRoundTrip.NodeText: a node's annotations are an association list in insertion order. Tree.py is Python 2 code, so `self.annotations.items()` in getNewick (debugging/Tree.py:65) visits the dictionary in hash order. The order in which annotations are printed is therefore not modelled. The round trip does not depend on it, because dictionaries compare without regard to order.
- EpidemicModel.EventsDefined: requires every rate input with shift times to hold one value per interval. EpidemicModel.java:148-171 validates only psi and removal. For the other rates the requires stands for the exception that `getArrayValue(i)` throws at an index that is not there, which is not modelled.
- Small preconditions standing for runtime exceptions and degenerate inputs:
  - IncidencePrior.IncidencePrior.CalculateLogP requires `|lower| <= |values|`, so the IndexOutOfBounds at IncidencePrior.java:66 is not modelled.
  - IntRealUpDown.IntRealUpDown.Proposal requires `windowSize >= 0`, so the exception of `nextInt` for a negative bound is not modelled.
  - ChangeTimesOperator.ChangeTimesOperator.Proposal requires `scaleFactor > 0`; a zero or negative factor is not modelled.
  - In the SIR simulation loops a waiting-time draw is a real, so the infinite draw the source makes for a zero total rate is not modelled.
  - TreeDensity.LogP, TreeDensity.TreeDensity.CalculateLogP and TreeDensity.TreeDensity.WalkEvents require the trajectory to have at least as many states as events. Every trajectory the source builds has one more state than events, so only a hand-made inconsistent trajectory, on which the source would index past its state list, is not modelled.
  - ChangeTimesOperator.Rejects, ChangeTimesOperator.AcceptKeepsOrder and ChangeTimesOperator.ChangeTimesOperator.Proposal require the chosen index to be inside the change-times parameter. This leaves out the empty parameter, where `Randomizer.nextInt(0)` throws.
  - SEISParticles.RandomChoicePDF treats a weight of negative infinity like any other non-finite weight, as the library throwing. The library itself would return an index for such a weight when the draw is positive. The weights of the SEIS filter are never negative, so this case cannot arise there.
  - TreeEvents.TreeEventList.GetEventList returns the list by value, so a caller sharing the list object with the cache is not modelled.
- The change-time prior follows the code: it sums `-(t_i - t_{i-1})/mean` without the `-log(mean)` normalisation of an exponential density.

## Findings

| source | as written | input that shows it | evidently intended | confidence | as-written member | corrected member |
|---|---|---|---|---|---|---|
| debugging/Tree.py:103-119 | a string argument is stored in `newickStr`, but `newickString` (still `""`) is parsed | `Tree("(A:1,B:1):0;")` fails reading the first token of the empty string | parse the given string | not executed | NewickTree.TreeOfStringFails | NewickTree.CorrectedTreeOf |
| src/epiinf/util/IncidenceData.java:40,50 | the text read from a file starts as `null`, so `string += " " + line` yields a leading `"null"` token | a file holding the line `1.0 3` gives the tokens `null 1.0 3`: an odd count, so the method throws | start from the empty string | not executed | UtilIncidenceData.AsWrittenRejectsFiles | UtilIncidenceData.IncidenceData.InitAndValidate |
| src/epiinf/TrajectoryFromFile.java:39,52,60 | events and states are added to `eventList` and `stateList`, which this class never allocates | a file with the expected header followed by a START line throws a NullPointerException at the first `stateList.add` | allocate both lists empty before reading | not executed | TrajectoryFromFile.NullListsRejectStates | TrajectoryFromFile.TrajectoryFromFile.InitAndValidateIntoEmpty |
| src/epiinf/FinalSampleOffsetFromTrajectory.java:41 | the loop over the events runs `i--`, so it examines only event 0 and then index -1 | events `[infection at 1.0, sample at 2.0]` with origin 3.0: the loop reads index -1 and throws, where the offset is 1.0 | start at `size()-1` and count down: the last (final) sample event in the list | not executed | TrajectoryQueries.FinalSampleOffsetAsWrittenFails | TrajectoryQueries.FinalSampleOffsetMeaning |
| src/epiinf/util/MultiParamDeltaExchange.java:60-63 | the second index is the draw, bumped by one only when it equals the first index | three parameters with first index 0: draws 0 and 1 both give index 1, and index 2 is never chosen | map the n - 1 draws one to one onto the other indices (bump when draw >= first) | not executed | MultiParamDeltaExchange.AsWrittenThreeParameters | MultiParamDeltaExchange.SecondIndexMeaning |
| src/epiinf/models/EpidemicModel.java:231-236 | when the order is not reversed, `getRateInInterval` returns `getArrayValue()`, the element 0, for every interval | rate values `[1, 2]`, one forward shift at time 5: the shift event carries rate 1 where 2 is intended | return element i | not executed | EpidemicModel.ForwardShiftAsWrittenDiverges | EpidemicModel.ShiftRateAgrees |
| src/epiinf/models/EpidemicModel.java:279-280 | for times given backwards, the early return of `binarySearch` gives `N-1-imin` instead of `N-1-imid` | rate values `[1, 2, 3, 4]`, backward shifts 20, 50, 100, origin 200: at time 101 the rate should be 3 but is 4 | `N-1-imid`, the interval holding the time | not executed | EpidemicModel.BackwardLookupAsWrittenDiverges | EpidemicModel.SearchFinds |
| debugging/SEIS_density.py:89 | `weights = ones(Nparticles)` uses `ones`, which the script never imports | any call of `computeLikelihood` raises NameError | numpy's `ones` (with `log` and `mean`) in scope | not executed | SeisDensity.ComputeLikelihoodAsWritten | SeisDensity.ComputeLikelihood |
| src/epiinf/distribs/SMCTreeDensity.java:126,174 | after the loop, `logP = Math.log(sumOfWeights/nParticles)` overwrites the estimate that the loop accumulated | an estimate of 1 accumulated over the earlier intervals and a final mean weight of e: the program returns 1 where the estimate is 2 | return the logP accumulated by the loop, which already holds the last interval's term (drop the overwrite at :174) | not executed | SMCTreeDensity.FinalIgnoresAccumulated | SMCTreeDensity.LogP |
