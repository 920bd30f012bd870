/** The table of executable tool kinds of the web application (`ToolMapping` in
    panderyx/workflows/tools/mappings.py): each tool type name selects a configuration
    record, its serializer, its executor and an input capacity. The record, serializer and
    executor classes are represented here only by the facts the table fixes about them. */
module ToolMapping {
  import opened Common

  /** The two members of the enumeration. */
  datatype ToolKind = InputUrl | DescribeData

  /** The enumeration member's name, which is also the `type` field of its configuration. */
  function TypeName(k: ToolKind): string {
    match k
    case InputUrl => "input_url"
    case DescribeData => "describe_data"
  }

  /** The `max_number_of_inputs` entry of the table. */
  function MaxNumberOfInputs(k: ToolKind): nat {
    match k
    case InputUrl => 0
    case DescribeData => 1
  }

  /** `ToolMapping[name]`: the lookup by name fails (a KeyError) for a name outside the table. */
  function Lookup(name: string): (r: Option<ToolKind>)
    ensures r.Some? <==> name == "input_url" || name == "describe_data"
    ensures r.Some? ==> TypeName(r.value) == name
  {
    if name == "input_url" then Some(InputUrl)
    else if name == "describe_data" then Some(DescribeData)
    else None
  }

  /** Every kind is found again under its own name, so the table is closed and its names distinct. */
  lemma LookupTypeName(k: ToolKind)
    ensures Lookup(TypeName(k)) == Some(k)
  {
  }

  /** The default of the `max_number_of_inputs` field of the kind's configuration record
      (the dataclasses `InputUrl` and `DescribeData`). */
  function RecordDefaultMaxInputs(k: ToolKind): nat {
    match k
    case InputUrl => 0
    case DescribeData => 1
  }

  /** The `max_value` bound the kind's serializer puts on `max_number_of_inputs`. */
  function SerializerMaxInputsBound(k: ToolKind): nat {
    match k
    case InputUrl => 0
    case DescribeData => 1
  }

  /** The capacity is written down three times in the source as separate constants: the table
      above, the record default and the serializer bound. This lemma checks that the copies of
      those constants agree; it is a consistency check of the constants, not a derivation. */
  lemma CapacityAgrees(k: ToolKind)
    ensures MaxNumberOfInputs(k) == RecordDefaultMaxInputs(k) == SerializerMaxInputsBound(k)
    ensures MaxNumberOfInputs(InputUrl) == 0 && MaxNumberOfInputs(DescribeData) == 1
  {
  }
}
