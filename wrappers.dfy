/** Failure-carrying results shared by every module: the exceptions the
    engine raises become `Err` / `Fail` values naming their cause. */
module Wrappers {

  datatype Option<+T> = None | Some(value: T)

  /** One constructor per distinct exception raised by the engine or by the
      library calls it makes. */
  datatype Error =
    | InvalidStrMode          // StrType: mode not in all/lowercase/uppercase
    | GeneValueMismatch       // Gene: value does not validate against its type
    | InvalidGenesList        // Chromosome: empty genes list
    | TemplateMismatch        // Population: chromosomes with different templates
    | InvalidFitnessMode      // Population.fitness: mode not maximize/minimize
    | TooManyParents          // get_parents: count above population size
    | TooFewParents           // get_parents: count below 1
    | TooFewCutPoints         // MultipointCrossover: cut_points_count < 2
    | InvalidA                // IntermediateRecombinationCrossover: a outside [0, 1]
    | NotFloatTemplate        // IntermediateRecombination: template not all equal FloatType
    | NotSameTypes            // SwapMutation: gene types differ
    | ChromosomeTooShort      // SwapMutation: fewer than two genes
    | EmptyChoice             // random.choice / random.choices on an empty sequence (IndexError)
    | EmptyRange              // random.randint(a, b) with a > b (ValueError)
    | SampleTooLarge          // random.sample with k above the population (ValueError)
    | NoFirstChromosome       // indexing [0] of an empty population (IndexError)
    | NonNumericValue         // arithmetic on a string gene value (TypeError)

  datatype Result<+T> = Ok(value: T) | Err(error: Error)

  datatype Outcome = Pass | Fail(error: Error)
}
