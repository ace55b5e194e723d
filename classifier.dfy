/** The network object `Run` drives. Its learning code is not part of this model: what
    is kept is the state `randomize_training_params` assigns (src/run.py:76-90), `build()`,
    and `train(data, restart=False, num_steps)`, which here records every step count it
    is asked for, in order. */
module NeuralNet {
  import opened Sampling

  class Classifier {
    var percTrain: int
    var batchSize: int
    var learningRate: real
    var neuronsPerLayer: seq<int>
    var activation: string
    var regularizationType: string
    var regularizationRate: real
    var featuresIds: seq<int>
    var built: bool
    /** The `num_steps` of every `train` call so far. */
    var stepsTrained: seq<int>

    /** `Classifier()`: not built and never trained; its default settings belong to the
        network module and are left unspecified. */
    constructor ()
      ensures !built && stepsTrained == []
    {
      built := false;
      stepsTrained := [];
    }

    /** The training settings, as one value. */
    function Params(): TrainingParams
      reads this`percTrain, this`batchSize, this`learningRate, this`neuronsPerLayer, this`activation,
            this`regularizationType, this`regularizationRate, this`featuresIds
    {
      TrainingParams(percTrain, batchSize, learningRate, neuronsPerLayer, activation,
                     regularizationType, regularizationRate, featuresIds)
    }

    /** `build()`: the settings are fixed from here on. */
    method Build()
      modifies this`built
      ensures built
    {
      built := true;
    }

    /** `train(data, restart=False, num_steps)`: continues training by `numSteps` steps. */
    method Train(numSteps: int)
      requires built
      modifies this`stepsTrained
      ensures stepsTrained == old(stepsTrained) + [numSteps]
    {
      stepsTrained := stepsTrained + [numSteps];
    }
  }
}
