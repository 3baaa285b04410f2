/** The data schema a source node builds for its physical operator: an ordered
    sequence of column descriptors. */
module Schema {
  import opened Ints
  import opened Optional
  import opened Status

  /** The element types the image-folder schema uses. */
  datatype DataType = DE_UINT8 | DE_INT32

  /** `TensorImpl::kFlexible`, the only tensor layout used here. */
  datatype TensorImpl = Flexible

  datatype TensorShape = TensorShape(dims: seq<int64>)

  /** `TensorShape::CreateScalar()`: the shape with no dimensions. */
  const Scalar: TensorShape := TensorShape([])

  /** `ColDescriptor(name, type, impl, rank, shape)`; `shape` is `None` for a null shape pointer. */
  datatype ColDescriptor = ColDescriptor(
    name: string, dataType: DataType, tensorImpl: TensorImpl, rank: int32, shape: Option<TensorShape>)

  datatype DataSchema = DataSchema(columns: seq<ColDescriptor>)

  /** Whether `DataSchema::AddColumn` accepts a descriptor, given the columns
      already present. The rule itself is not part of this model. */
  type ColumnAdmission = (seq<ColDescriptor>, ColDescriptor) -> Status

  /** `DataSchema::AddColumn`: append the descriptor if it is admitted. */
  function AddColumn(schema: DataSchema, cd: ColDescriptor, admit: ColumnAdmission): (r: Result<DataSchema>)
    ensures r.Success? <==> admit(schema.columns, cd) == Ok
    ensures r.Success? ==> r.value.columns == schema.columns + [cd]
    ensures r.Failure? ==> admit(schema.columns, cd) == Err(r.error)
  {
    match admit(schema.columns, cd)
    case Ok => Success(DataSchema(schema.columns + [cd]))
    case Err(e) => Failure(e)
  }

  /** The primary column: undecoded image bytes of rank 1. */
  const ImageColumn: ColDescriptor := ColDescriptor("image", DE_UINT8, Flexible, 1, None)

  /** The label column: a scalar class index. */
  const LabelColumn: ColDescriptor := ColDescriptor("label", DE_INT32, Flexible, 0, Some(Scalar))

  /** The internal schema of an image-folder source: "image" then "label",
      each added with `AddColumn`, stopping at the first column refused. */
  function BuildSchema(admit: ColumnAdmission): (r: Result<DataSchema>)
    ensures r.Success? <==> admit([], ImageColumn) == Ok && admit([ImageColumn], LabelColumn) == Ok
    ensures r.Success? ==>
      && |r.value.columns| == 2
      && r.value.columns[0].name == "image" && r.value.columns[0].dataType == DE_UINT8
      && r.value.columns[0].rank == 1 && r.value.columns[0].shape == None
      && r.value.columns[1].name == "label" && r.value.columns[1].dataType == DE_INT32
      && r.value.columns[1].rank == 0 && r.value.columns[1].shape == Some(TensorShape([]))
    ensures r.Failure? ==> Err(r.error) == FirstError([admit([], ImageColumn), admit([ImageColumn], LabelColumn)])
  {
    var empty := DataSchema([]);
    match AddColumn(empty, ImageColumn, admit)
    case Failure(e) => Failure(e)
    case Success(withImage) =>
      assert withImage.columns == [ImageColumn];
      assert [admit([], ImageColumn), admit([ImageColumn], LabelColumn)][1..] == [admit([ImageColumn], LabelColumn)];
      AddColumn(withImage, LabelColumn, admit)
  }

  /** An admission rule that refuses a column only when its name is already taken. */
  ghost predicate RejectsOnlyDuplicates(admit: ColumnAdmission)
  {
    forall cols: seq<ColDescriptor>, cd: ColDescriptor :: admit(cols, cd) != Ok ==> exists i :: 0 <= i < |cols| && cols[i].name == cd.name
  }

  /** Under a duplicate-name rule the fixed schema is always built: its two names differ. */
  lemma BuildSchemaSucceedsWithoutDuplicates(admit: ColumnAdmission)
    requires RejectsOnlyDuplicates(admit)
    ensures BuildSchema(admit).Success?
  {
  }
}
