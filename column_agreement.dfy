/**
 * The column order is written out twice: once in the dataset preparation and once
 * where the serving code builds its feature frame. Training drops Calorie_Level from
 * the processed columns and fits on the rest, so the two lists must agree.
 */
module ColumnAgreement {
  import opened Frames
  import DataPreparation
  import App

  /** The processed dataset's columns are the serving feature columns followed by the label column. */
  lemma TrainingColumnsMatchServing()
    ensures DataPreparation.OutputColumns == App.FeatureColumns + ["Calorie_Level"]
  {
  }

  /** Every serving frame has the training features, in training order. */
  lemma ServingFrameMatchesTraining(data: App.ChildInput, bmi: real)
    ensures Names(App.InputFrame(data, bmi)) == DataPreparation.OutputColumns[..6]
  {
    TrainingColumnsMatchServing();
    assert DataPreparation.OutputColumns[..6] == App.FeatureColumns;
  }
}
