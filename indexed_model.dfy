/**
 * IndexedModel (indexedModel.hpp / indexedModel.cpp): a list of vertex
 * elements, each a flat list of floats with a per-element component size,
 * plus an index list.  Everything is append-only; the instanced start
 * index splits the elements into per-vertex and per-instance ones when
 * the vertex array is created.  The render device call itself is not
 * modelled: creating the vertex array here returns what would be handed
 * to it.
 */
module IndexedModels {
  const TWO32: int := 0x1_0000_0000
  type uint32 = x: int | 0 <= x < TWO32

  /** (uint32)-1: no element is instanced. */
  const NO_INSTANCING: uint32 := 0xffff_ffff

  /** numInstanceComponents: 0 without instancing, else count - start in 32-bit arithmetic. */
  function InstanceComponents(count: uint32, start: uint32): (n: uint32)
    ensures start == NO_INSTANCING ==> n == 0
    ensures start != NO_INSTANCING && start <= count ==> n == count - start
  {
    if start == NO_INSTANCING then 0 else (count - start) % TWO32
  }

  /** numVertexComponents: count minus the instanced ones, in 32-bit arithmetic. */
  function VertexComponents(count: uint32, start: uint32): (n: uint32)
    ensures start == NO_INSTANCING ==> n == count
    ensures start != NO_INSTANCING && start <= count ==> n == start
  {
    (count - InstanceComponents(count, start)) % TWO32
  }

  /** With a start index inside the element list, the two kinds of component add up to all elements. */
  lemma ComponentsPartition(count: uint32, start: uint32)
    requires start == NO_INSTANCING || start <= count
    ensures VertexComponents(count, start) + InstanceComponents(count, start) == count
    ensures VertexComponents(count, start) <= count
  {
  }

  /** What createVertexArray hands to the render device. */
  datatype VertexArrayData = VertexArrayData(
    vertexData: seq<seq<real>>,
    elementSizes: seq<uint32>,
    numVertexComponents: uint32,
    numInstanceComponents: uint32,
    numVertices: uint32,
    indices: seq<uint32>,
    numIndices: uint32)

  class IndexedModel {
    var indices: seq<uint32>
    var elementSizes: seq<uint32>
    var elements: seq<seq<real>>
    var instancedElementsStartIndex: uint32

    /** Every allocated element has its own float list. */
    ghost predicate Valid()
      reads this
    {
      |elementSizes| == |elements|
    }

    /** The default model is empty and has no instanced elements. */
    constructor ()
      ensures Valid()
      ensures indices == [] && elementSizes == [] && elements == []
      ensures instancedElementsStartIndex == NO_INSTANCING
    {
      indices, elementSizes, elements := [], [], [];
      instancedElementsStartIndex := NO_INSTANCING;
    }

    /** allocateElement: a new element with the given component size and no data. */
    method AllocateElement(elementSize: uint32)
      requires Valid()
      modifies this
      ensures Valid()
      ensures elementSizes == old(elementSizes) + [elementSize]
      ensures elements == old(elements) + [[]]
      ensures indices == old(indices) && instancedElementsStartIndex == old(instancedElementsStartIndex)
    {
      elementSizes := elementSizes + [elementSize];
      elements := elements + [[]];
    }

    /** setInstancedElementStartIndex: only the start index changes. */
    method SetInstancedElementStartIndex(elementIndex: uint32)
      modifies this
      ensures instancedElementsStartIndex == elementIndex
      ensures indices == old(indices) && elementSizes == old(elementSizes) && elements == old(elements)
    {
      instancedElementsStartIndex := elementIndex;
    }

    /** Append floats to one element's list (the push_back sequence of addElementNf). */
    method Append(elementIndex: uint32, values: seq<real>)
      requires Valid() && elementIndex < |elementSizes|
      modifies this
      ensures Valid()
      ensures elements == old(elements)[elementIndex := old(elements[elementIndex]) + values]
      ensures indices == old(indices) && elementSizes == old(elementSizes)
      ensures instancedElementsStartIndex == old(instancedElementsStartIndex)
    {
      elements := elements[elementIndex := elements[elementIndex] + values];
    }

    method AddElement1f(elementIndex: uint32, e0: real)
      requires Valid() && elementIndex < |elementSizes|
      modifies this
      ensures Valid()
      ensures elements == old(elements)[elementIndex := old(elements[elementIndex]) + [e0]]
      ensures indices == old(indices) && elementSizes == old(elementSizes)
      ensures instancedElementsStartIndex == old(instancedElementsStartIndex)
    {
      Append(elementIndex, [e0]);
    }

    method AddElement2f(elementIndex: uint32, e0: real, e1: real)
      requires Valid() && elementIndex < |elementSizes|
      modifies this
      ensures Valid()
      ensures elements == old(elements)[elementIndex := old(elements[elementIndex]) + [e0, e1]]
      ensures indices == old(indices) && elementSizes == old(elementSizes)
      ensures instancedElementsStartIndex == old(instancedElementsStartIndex)
    {
      Append(elementIndex, [e0]);
      Append(elementIndex, [e1]);
      assert old(elements[elementIndex]) + [e0] + [e1] == old(elements[elementIndex]) + [e0, e1];
    }

    method AddElement3f(elementIndex: uint32, e0: real, e1: real, e2: real)
      requires Valid() && elementIndex < |elementSizes|
      modifies this
      ensures Valid()
      ensures elements == old(elements)[elementIndex := old(elements[elementIndex]) + [e0, e1, e2]]
      ensures indices == old(indices) && elementSizes == old(elementSizes)
      ensures instancedElementsStartIndex == old(instancedElementsStartIndex)
    {
      Append(elementIndex, [e0]);
      Append(elementIndex, [e1]);
      Append(elementIndex, [e2]);
      assert old(elements[elementIndex]) + [e0] + [e1] + [e2] == old(elements[elementIndex]) + [e0, e1, e2];
    }

    method AddElement4f(elementIndex: uint32, e0: real, e1: real, e2: real, e3: real)
      requires Valid() && elementIndex < |elementSizes|
      modifies this
      ensures Valid()
      ensures elements == old(elements)[elementIndex := old(elements[elementIndex]) + [e0, e1, e2, e3]]
      ensures indices == old(indices) && elementSizes == old(elementSizes)
      ensures instancedElementsStartIndex == old(instancedElementsStartIndex)
    {
      Append(elementIndex, [e0]);
      Append(elementIndex, [e1]);
      Append(elementIndex, [e2]);
      Append(elementIndex, [e3]);
      assert old(elements[elementIndex]) + [e0] + [e1] + [e2] + [e3] == old(elements[elementIndex]) + [e0, e1, e2, e3];
    }

    method AddIndices1i(i0: uint32)
      modifies this
      ensures indices == old(indices) + [i0]
      ensures elementSizes == old(elementSizes) && elements == old(elements)
      ensures instancedElementsStartIndex == old(instancedElementsStartIndex)
    {
      indices := indices + [i0];
    }

    method AddIndices2i(i0: uint32, i1: uint32)
      modifies this
      ensures indices == old(indices) + [i0, i1]
      ensures elementSizes == old(elementSizes) && elements == old(elements)
      ensures instancedElementsStartIndex == old(instancedElementsStartIndex)
    {
      indices := indices + [i0];
      indices := indices + [i1];
      assert old(indices) + [i0] + [i1] == old(indices) + [i0, i1];
    }

    method AddIndices3i(i0: uint32, i1: uint32, i2: uint32)
      modifies this
      ensures indices == old(indices) + [i0, i1, i2]
      ensures elementSizes == old(elementSizes) && elements == old(elements)
      ensures instancedElementsStartIndex == old(instancedElementsStartIndex)
    {
      indices := indices + [i0];
      indices := indices + [i1];
      indices := indices + [i2];
      assert old(indices) + [i0] + [i1] + [i2] == old(indices) + [i0, i1, i2];
    }

    method AddIndices4i(i0: uint32, i1: uint32, i2: uint32, i3: uint32)
      modifies this
      ensures indices == old(indices) + [i0, i1, i2, i3]
      ensures elementSizes == old(elementSizes) && elements == old(elements)
      ensures instancedElementsStartIndex == old(instancedElementsStartIndex)
    {
      indices := indices + [i0];
      indices := indices + [i1];
      indices := indices + [i2];
      indices := indices + [i3];
      assert old(indices) + [i0] + [i1] + [i2] + [i3] == old(indices) + [i0, i1, i2, i3];
    }

    /** getNumIndices: the size of the index list, as a uint32. */
    method GetNumIndices() returns (n: uint32)
      ensures n == |indices| % TWO32
      ensures |indices| < TWO32 ==> n == |indices|
    {
      n := |indices| % TWO32;
    }

    /**
     * createVertexArray, up to the device call: the first
     * numVertexComponents element lists, the component counts, and the
     * vertex count read off element 0.  Element 0 must exist, its size
     * must be nonzero, and the start index must lie in the element list
     * (otherwise the loop reads past it).
     */
    method CreateVertexArray() returns (r: VertexArrayData)
      requires Valid() && 0 < |elementSizes| < TWO32 && elementSizes[0] != 0
      requires instancedElementsStartIndex == NO_INSTANCING || instancedElementsStartIndex <= |elementSizes|
      ensures r.numInstanceComponents == InstanceComponents(|elementSizes|, instancedElementsStartIndex)
      ensures r.numVertexComponents == VertexComponents(|elementSizes|, instancedElementsStartIndex)
      ensures r.numVertexComponents + r.numInstanceComponents == |elementSizes|
      ensures r.vertexData == elements[..r.numVertexComponents]
      ensures r.elementSizes == elementSizes
      ensures r.numVertices == (|elements[0]| / elementSizes[0]) % TWO32
      ensures r.indices == indices && r.numIndices == |indices| % TWO32
    {
      var numVertexComponents: uint32 := |elementSizes|;
      var numInstanceComponents: uint32 := if instancedElementsStartIndex == NO_INSTANCING then 0
        else (numVertexComponents - instancedElementsStartIndex) % TWO32;
      numVertexComponents := (numVertexComponents - numInstanceComponents) % TWO32;
      ComponentsPartition(|elementSizes|, instancedElementsStartIndex);
      var vertexData: seq<seq<real>> := [];
      for i := 0 to numVertexComponents
        invariant vertexData == elements[..i]
      {
        vertexData := vertexData + [elements[i]];
      }
      var numVertices: uint32 := (|elements[0]| / elementSizes[0]) % TWO32;
      var numIndices: uint32 := |indices| % TWO32;
      r := VertexArrayData(vertexData, elementSizes, numVertexComponents, numInstanceComponents,
        numVertices, indices, numIndices);
    }
  }
}
