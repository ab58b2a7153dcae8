/** The vertex-input layout of `Vertex`: one binding and two attributes, a
    two-float position followed by a three-float colour. */
module Vertex {
  import opened VkTypes

  /** VkVertexInputBindingDescription */
  datatype BindingDescription = BindingDescription(binding: u32, stride: u32, inputRate: u32)

  /** VkVertexInputAttributeDescription */
  datatype AttributeDescription = AttributeDescription(location: u32, binding: u32, format: u32, offset: u32)

  /** Size in bytes of one element of the attribute formats used here. */
  function FormatSize(format: u32): nat {
    if format == FormatR32G32Sfloat then 8
    else if format == FormatR32G32B32Sfloat then 12
    else 0
  }

  /** `offsetof(Vertex, pos)`, `offsetof(Vertex, color)` and `sizeof(Vertex)`
      for a struct holding the position and then the colour, packed on
      4-byte floats. */
  const PosOffset: u32 := 0
  const ColorOffset: u32 := PosOffset + FormatSize(FormatR32G32Sfloat)
  const VertexSize: u32 := ColorOffset + FormatSize(FormatR32G32B32Sfloat)

  /** Vertex::getBindingDescription */
  function GetBindingDescription(): (d: BindingDescription)
    ensures d.binding == 0 && d.stride == VertexSize && d.inputRate == VertexInputRateVertex
  {
    BindingDescription(0, VertexSize, VertexInputRateVertex)
  }

  /** Vertex::getAttributeDescriptions */
  function GetAttributeDescriptions(): (ds: seq<AttributeDescription>)
    ensures |ds| == 2
    ensures ds[0] == AttributeDescription(0, 0, FormatR32G32Sfloat, PosOffset)
    ensures ds[1] == AttributeDescription(1, 0, FormatR32G32B32Sfloat, ColorOffset)
  {
    [AttributeDescription(0, 0, FormatR32G32Sfloat, PosOffset),
     AttributeDescription(1, 0, FormatR32G32B32Sfloat, ColorOffset)]
  }

  /** The attributes feed the binding the binding description declares, at
      distinct locations, and each one's bytes lie inside one vertex stride
      without overlapping the other's. The last two facts rest on the layout
      assumed for `Vertex` above (position at 0, colour at 8, stride 20);
      the first two hold whatever the layout. */
  lemma AttributesFitBinding()
    ensures forall a :: a in GetAttributeDescriptions() ==> a.binding == GetBindingDescription().binding
    ensures GetAttributeDescriptions()[0].location != GetAttributeDescriptions()[1].location
    ensures forall a :: a in GetAttributeDescriptions() ==>
              a.offset + FormatSize(a.format) <= GetBindingDescription().stride
    ensures GetAttributeDescriptions()[0].offset + FormatSize(GetAttributeDescriptions()[0].format)
              <= GetAttributeDescriptions()[1].offset
  {
  }
}
