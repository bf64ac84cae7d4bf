# Recipe mixer tick, modelled in Dafny

This project models the per-tick blending step of the kitlus `RecipeMixer`
facility (`RecipeMixer::Tick` in `agents/recipe_mixer.cc`). The facility has
two input buffers and one output buffer. Input 1 holds the filler stream and
input 2 the fissile stream. On each tick it does the following:

1. It idles when an input is (nearly) empty, or when throughput or output
   room is below the tolerance.
2. It drains each input buffer and absorbs all of its batches into one.
3. It asks a reactivity solver for the fissile fraction `frac2`. A negative
   answer means the target cannot be reached: both merged batches go back
   and the tick ends.
4. It cuts the planned quantity down to the input stream it judges to be
   binding, using the smaller slack.
5. It extracts each stream's share, clamped to what the stream holds, and
   absorbs the two pieces into one mix.
6. It pushes the mix onto the output buffer. Each remainder goes back into
   its input buffer only if it still holds anything.

The project has three modules:

- `Materials` (`materials.dfy`): a batch of material is a vector of nuclide
  masses, and its quantity is their sum. This module defines `Absorb`
  (nuclide-wise addition), `ExtractQty` (proportional scaling into a piece
  and a rest), buffer totals and the merge of a whole buffer.
- `Blend` (`blend.dfy`): the pure quantity arithmetic of lines 78-99. It
  covers the binding-stream choice, the reduced quantity, the two clamped
  takes, and when the mix keeps the recipe ratio.
- `RecipeMixing` (`recipe_mixer.dfy`): the facility as a class.
  - The class holds the three buffers as sequences of batches, plus their
    capacities and the throughput.
  - `Tick` mutates the buffers. It is proved equal to the specification
    function `TickSpec`.
  - `Tick` is split into `Tick`, `BlendInputs` and `MixAndPush`. These follow
    the idle check, the merge/rollback, and the blend/push parts of the
    source.
  - The properties of a tick are lemmas about `TickSpec`.

The slack comparison on line 84 does not always pick the stream that really
limits the blend. `Blend.RecipeKeptIffScarcerBinds` proves when the mix keeps
the recipe. It always does when neither stream is short. When a stream is
short, it does exactly when the chosen stream is also the scarcer one by
quantity-per-share. `Blend.SlackOrderCanMisjudge` gives an input where the
two disagree: with `frac2 = 0.1`, `qty = 100`, `m1 = 80` and `m2 = 1`, the
mix comes out 80:1 instead of 9:1. The model keeps the source's behaviour.

## Model

| member | source | states |
|---|---|---|
| Materials.Absorb | agents/recipe_mixer.cc:53-55 | Absorbing one batch into another adds their quantities and every nuclide's mass, and keeps the result physical (no negative mass). |
| Materials.Merged | agents/recipe_mixer.cc:50-61 | Absorbing all popped batches into the first gives a physical batch whose quantity is the buffer's former total. |
| Materials.MergedNuclides | agents/recipe_mixer.cc:50-61 | The merged batch holds, for each nuclide, exactly the buffer's total mass of that nuclide. |
| Materials.ExtractQty | agents/recipe_mixer.cc:98-99 | Extracting `qty` (at most the batch's quantity) leaves a piece of exactly `qty` and a rest of quantity minus `qty`, both physical. |
| Materials.ExtractedPieceComposition | agents/recipe_mixer.cc:98-99 | The piece holds each nuclide at the share `qty / quantity` of the batch's mass of it, so it keeps the batch's composition. |
| Materials.ExtractedRestComposition | agents/recipe_mixer.cc:98-99 | The rest holds each nuclide at the remaining share of the batch's mass of it. |
| Materials.ExtractThenAbsorb | agents/recipe_mixer.cc:98-99 | Absorbing the extracted piece back into the rest gives the original batch: extraction is undone by absorption. |
| Materials.ExtractSplitsNuclide | agents/recipe_mixer.cc:98-99 | Every nuclide's mass is split between piece and rest with nothing lost. |
| Blend.BindingStream | agents/recipe_mixer.cc:80-90 | Definition, no contract: unconstrained when neither slack (stream quantity minus its share of the plan) is negative. Otherwise stream 1 when its slack is strictly smaller, and stream 2 otherwise. |
| Blend.BindingStreamHasShare | agents/recipe_mixer.cc:84-95 | When stream 1 binds, `frac1 > 0`, and when stream 2 binds, `frac2 > 0`, so neither reduction divides by zero. |
| Blend.BindingStreamIsShort | agents/recipe_mixer.cc:80-96 | The stream judged binding is short of its share of the planned quantity. |
| Blend.TieBindsStream2 | agents/recipe_mixer.cc:84-96 | With equal negative slacks, stream 2 is taken as binding. |
| Blend.ReducedQty | agents/recipe_mixer.cc:78-96 | The reduced quantity lies between 0 and the planned quantity. It equals the planned quantity exactly when neither stream is short. It is positive when both streams and the plan are. |
| Blend.BindingShareOfReduced | agents/recipe_mixer.cc:84-95 | The binding stream, at its share, makes up exactly the reduced quantity. |
| Blend.FeasibleBlendAtMostReduced | agents/recipe_mixer.cc:78-96 | Every blend quantity within the plan whose shares both streams can supply is at most the reduced quantity. This is an upper bound only: the reduced quantity itself is not always such a blend (see `Blend.SlackOrderCanMisjudge`). |
| Blend.Take | agents/recipe_mixer.cc:98-99 | A take is the stream's share of the quantity or all the stream holds, whichever is smaller, and never negative. |
| Blend.PlanBlend | agents/recipe_mixer.cc:78-99 | Each take lies between 0 and the stream's quantity. Together they are at most the planned quantity, and positive when both streams and the plan are. |
| Blend.UnconstrainedFillsQty | agents/recipe_mixer.cc:78-99 | With neither stream short, the takes are exactly `frac1*qty` and `frac2*qty` and add up to `qty`. |
| Blend.BindingStreamUsedUp | agents/recipe_mixer.cc:84-99 | The binding stream is drawn in full. |
| Blend.RecipeKeptWhenStream1Binds | agents/recipe_mixer.cc:84-99 | When stream 1 binds, it is drawn in full. The mix keeps the recipe ratio iff stream 1 is also the scarcer stream, and then the mix is the reduced quantity. |
| Blend.RecipeKeptWhenStream2Binds | agents/recipe_mixer.cc:90-99 | The mirror image for stream 2. |
| Blend.RecipeKeptIffScarcerBinds | agents/recipe_mixer.cc:82-99 | The mix keeps the recipe ratio iff either neither stream is short (then it always does), or the stream chosen by slack is the scarcer one by quantity per share. |
| Blend.SlackOrderCanMisjudge | agents/recipe_mixer.cc:84-99 | With `frac2 = 0.1`, `qty = 100`, `m1 = 80` and `m2 = 1`, stream 1 is chosen though stream 2 is scarcer. The takes are 80 and 1, which misses the recipe. |
| Blend.ScenarioUnconstrained | agents/recipe_mixer.cc:78-99 | 10 and 10 on hand, `frac2 = 0.3`, 5 planned: unconstrained, takes 3.5 and 1.5. |
| Blend.ScenarioStream1Binds | agents/recipe_mixer.cc:78-99 | 2 and 10 on hand, `frac2 = 0.3`, 5 planned: stream 1 binds, takes 2 and 6/7. |
| RecipeMixing.TickQty | agents/recipe_mixer.cc:44 | Definition, no contract: the smaller of the throughput and the output room. |
| RecipeMixing.Idle | agents/recipe_mixer.cc:45 | Definition, no contract: an input holds less than the tolerance, or the tick quantity is below it. |
| RecipeMixing.PushBack | agents/recipe_mixer.cc:108-113 | Definition, no contract: the remainder as a one-batch buffer if its quantity is positive, otherwise nothing. |
| RecipeMixing.TickPlan | agents/recipe_mixer.cc:78-99 | Definition, no contract: the blend plan of lines 78-99 applied to the buffers' totals and the tick quantity. |
| RecipeMixing.TickSpec | agents/recipe_mixer.cc:44-113 | Definition, no contract: the buffers after one tick, branch by branch. Idle leaves them unchanged. A negative fraction puts back each input merged into one batch. Otherwise the planned takes are extracted from the merged inputs, their mix is appended to the output, and each positive remainder is put back. `RecipeMixer.Tick` is proved against it, and the lemmas below state its properties. |
| RecipeMixing.Space | agents/recipe_mixer.cc:44 | The output room is never negative, and it is the capacity minus the contents whenever positive. |
| RecipeMixing.PushBackHoldsRest | agents/recipe_mixer.cc:108-113 | What goes back into a buffer holds exactly the remainder's quantity, as physical batches of positive quantity. |
| RecipeMixing.PushBackNuclide | agents/recipe_mixer.cc:108-113 | What goes back into a buffer holds each nuclide's mass of the remainder, so dropping an empty remainder loses no nuclide. |
| RecipeMixing.AbsorbAll | agents/recipe_mixer.cc:50-61 | The loop absorbing each popped batch into the first computes the merged batch, whose quantity is the buffer's total. |
| RecipeMixing.Mix | agents/recipe_mixer.cc:78-99 | The mix and the two remainders are the extractions of the planned takes. Their quantities add up to what the two streams held, and the mix is at most the planned quantity. |
| RecipeMixing.RecipeMixer.Tick | agents/recipe_mixer.cc:39-114 | A tick leaves the buffers as `TickSpec` describes and keeps every buffer physical and within capacity. |
| RecipeMixing.RecipeMixer.BlendInputs | agents/recipe_mixer.cc:49-113 | Past the idle check, the merge followed by rollback or blending gives the buffers `TickSpec` describes, and keeps every buffer physical and within capacity. |
| RecipeMixing.RecipeMixer.MixAndPush | agents/recipe_mixer.cc:98-113 | Starting from the tick's quantity and two merged batches that fit their buffers: the output gains the mix of the two extracted pieces, each input holds its remainder when that is positive and nothing otherwise, and every buffer stays within capacity. |
| RecipeMixing.BlendedBuffersWellFormed | agents/recipe_mixer.cc:98-113 | After the blend and the pushes, every batch is physical, the mix fits in the output room, and each remainder fits in its input buffer. |
| RecipeMixing.IdleTick | agents/recipe_mixer.cc:44-47 | When an input holds less than the tolerance, or throughput or output room is below it, no buffer changes. |
| RecipeMixing.RollbackTick | agents/recipe_mixer.cc:63-72 | With a negative fraction, each input holds one merged batch with its former total, and the output is untouched. |
| RecipeMixing.MixingTickOfMerged | agents/recipe_mixer.cc:78-113 | A blending tick extracts the planned takes from the merged inputs, pushes their mix, and pushes back the positive remainders. |
| RecipeMixing.MixingTickQuantities | agents/recipe_mixer.cc:98-113 | A blending tick lowers input 1 by exactly `take1` and input 2 by `take2`, keeps the old output batches in order, and appends one physical batch of `take1 + take2`. |
| RecipeMixing.TickKeepsWellFormed | agents/recipe_mixer.cc:39-114 | Every tick keeps all batches physical and every buffer within its capacity. |
| RecipeMixing.MixingTickWellFormed | agents/recipe_mixer.cc:98-113 | A blending tick keeps the output buffer within its capacity. |
| RecipeMixing.TickConservesMass | agents/recipe_mixer.cc:39-114 | The total quantity over the three buffers is the same after any tick. |
| RecipeMixing.TickConservesNuclides | agents/recipe_mixer.cc:39-114 | For every nuclide, its mass over the three buffers is the same after any tick. |
| RecipeMixing.MixingTickNuclides | agents/recipe_mixer.cc:78-113 | After a blending tick, the buffers hold each nuclide's mass of the two merged inputs plus the old output. |
| RecipeMixing.MixWithinLimits | agents/recipe_mixer.cc:44-107 | The mix of a blending tick is positive, at most the throughput and at most the output room. The output stays within capacity. |
| RecipeMixing.UnconstrainedTick | agents/recipe_mixer.cc:78-99 | With neither stream short, the tick takes `frac1*qty` and `frac2*qty`, which add up to the full tick quantity. |
| RecipeMixing.RemaindersAfterTick | agents/recipe_mixer.cc:84-113 | After a blending tick, each input holds at most one batch, of positive quantity. The stream that bound the blend goes back empty. |

## Left out

- Trader registration in the constructor, `EnterNotify` and `Decommission` (lines 10-37), and the `ConstructRecipeMixer` factory (lines 116-118), are host plumbing with no blending logic. The class has a constructor that takes the buffer limits and the throughput, which the host sets from its input.
- The reactivity solver `kitlus::CosiFissileFrac` (line 65) is not part of this model. Its answer is the parameter `frac2` of `Tick`.
- RecipeMixing.RecipeMixer.Tick requires `frac2 <= 1`, which the source never checks. That is the solver's range; above 1, `frac1` would be negative and line 98 would extract a negative quantity.
- Recipe lookups (`GetRecipe`) and the isotope internals of `Composition` are host registry data. A nuclide is identified by its position in the mass vector.
- Logging and `MatQuery` diagnostics (lines 40-43, 74-75, 86-88, 92-94, 101-105) are output only.
- Quantities are exact reals. IEEE floating-point rounding is not modelled. The `std::min` clamps on lines 98-99 are modelled, but the rounding overshoot they guard against cannot arise here.
- Host `Material` objects are modelled as values. The in-place mutation of `m1` and `m2` by `Absorb` and `ExtractQty`, and the aliasing between a popped pointer and the merged batch, are not captured.
- The host buffer (`ResBuf`) and material classes are not part of this model. Their behaviour is assumed:
  - `space()` is the capacity minus the contents, floored at 0.
  - `quantity()` is the sum of the batches.
  - `PopN(count())` empties the buffer in push order.
  - `Push` appends.
  - The tolerance `eps()` is 1e-6.
- Two host failures are turned into proof obligations that are shown to be met, so they are never modelled as raised: `ExtractQty` throwing on over-extraction, and `Push` throwing beyond capacity.
