/**
  A metadata group: a resource, an optional label and an append-only list of
  label/value items, each tagged with whether it comes from the root level of
  the manifest.
*/
module Metadata {
  import opened Wrappers

  /** A label/value pair; `isRootLevel` is set when it is added to a group. */
  class MetadataItem {
    const labelText: string
    const value: string
    var isRootLevel: bool

    constructor (labelText: string, value: string)
      ensures this.labelText == labelText && this.value == value && !isRootLevel
    {
      this.labelText := labelText;
      this.value := value;
      isRootLevel := false;
    }
  }

  class MetadataGroup<R> {
    var resource: R
    var labelText: Option<string>
    var items: seq<MetadataItem>

    /** A new group holds no items; the label is absent unless given. */
    constructor (resource: R, labelText: Option<string> := None)
      ensures this.resource == resource && this.labelText == labelText
      ensures items == []
    {
      this.resource := resource;
      this.labelText := labelText;
      items := [];
    }

    /** `addItem`: `item` goes at the end; the earlier items stay as they were. */
    method AddItem(item: MetadataItem)
      modifies this`items
      ensures items == old(items) + [item]
    {
      items := items + [item];
    }

    /**
      `addMetadata`: each pair of `metadata`, in order, is tagged with
      `isRootLevel` and appended.  Items that were already in the group and
      are not among `metadata` keep their tag.
    */
    method AddMetadata(metadata: seq<MetadataItem>, isRootLevel: bool := false)
      modifies this`items, set m | m in metadata
      ensures items == old(items) + metadata
      ensures forall m :: m in metadata ==> m.isRootLevel == isRootLevel
      ensures forall m :: m in old(items) && m !in metadata ==> m.isRootLevel == old(m.isRootLevel)
    {
      for i := 0 to |metadata|
        invariant items == old(items) + metadata[..i]
        invariant forall k :: 0 <= k < i ==> metadata[k].isRootLevel == isRootLevel
      {
        var item := metadata[i];
        item.isRootLevel := isRootLevel;
        AddItem(item);
        assert metadata[..i + 1] == metadata[..i] + [item];
      }
      assert metadata[..|metadata|] == metadata;
    }
  }
}
