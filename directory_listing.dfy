// A directory of the network file system: an id, its metadata, and the entries it lists.
// The listing is a mutable record: each setter overwrites one part and leaves the rest alone.
module Nfs {

  /** The random identifier of a directory. */
  type ContainerId = nat

  /** A directory's metadata: its name and the bytes the user attached to it. (Metadata's own
      definition also keeps sizes and times, which no listing operation touches.) */
  datatype Metadata = Metadata(name: string, userMetadata: seq<bv8>)

  /** Metadata::new for a fresh directory. */
  function NewMetadata(name: string, userMetadata: seq<bv8>): (m: Metadata)
    ensures m.name == name && m.userMetadata == userMetadata
  {
    Metadata(name, userMetadata)
  }

  /** A file entry of a listing, carried as a value. */
  datatype File = File(metadata: Metadata, content: seq<bv8>)

  /** A sub-directory entry of a listing: the sub-directory's id and metadata. */
  datatype ContainerInfo = ContainerInfo(id: ContainerId, metadata: Metadata)

  class DirectoryListing {
    var id: ContainerId
    var metadata: Metadata
    var subDirectories: seq<ContainerInfo>
    var files: seq<File>

    /** A new, empty directory named `name`; `id` is the fresh random container id. */
    constructor (name: string, userMetadata: seq<bv8>, id: ContainerId)
      ensures this.id == id
      ensures metadata == NewMetadata(name, userMetadata)
      ensures metadata.name == name && metadata.userMetadata == userMetadata
      ensures subDirectories == [] && files == []
    {
      this.id := id;
      metadata := NewMetadata(name, userMetadata);
      subDirectories := [];
      files := [];
    }

    /** A copy of the metadata; the listing is not changed. */
    method GetMetadata() returns (m: Metadata)
      ensures m == metadata
    {
      m := metadata;
    }

    /** Replaces the metadata; id, files and sub-directories stay as they were. */
    method SetMetadata(m: Metadata)
      modifies this`metadata
      ensures metadata == m
    {
      metadata := m;
    }

    /** A copy of the file entries; the listing is not changed. */
    method GetFiles() returns (fs: seq<File>)
      ensures fs == files
    {
      fs := files;
    }

    /** Replaces the file entries; id, metadata and sub-directories stay as they were. */
    method SetFiles(fs: seq<File>)
      modifies this`files
      ensures files == fs
    {
      files := fs;
    }

    /** A copy of the sub-directory entries; the listing is not changed. */
    method GetSubDirectories() returns (ds: seq<ContainerInfo>)
      ensures ds == subDirectories
    {
      ds := subDirectories;
    }

    /** Replaces the sub-directory entries; id, metadata and files stay as they were. */
    method SetSubDirectories(ds: seq<ContainerInfo>)
      modifies this`subDirectories
      ensures subDirectories == ds
    {
      subDirectories := ds;
    }

    /** Renames the directory: only the metadata's name changes. */
    method SetName(name: string)
      modifies this`metadata
      ensures metadata == old(metadata).(name := name)
      ensures metadata.userMetadata == old(metadata).userMetadata
    {
      metadata := metadata.(name := name);
    }
  }

  /** What a caller of the listing can rely on: after each setter the matching getter returns
      exactly what was set, and the other parts read back unchanged. */
  method SetThenGet(d: DirectoryListing, m: Metadata, fs: seq<File>, ds: seq<ContainerInfo>, name: string)
    modifies d
    ensures d.id == old(d.id)
    ensures d.metadata == m.(name := name) && d.files == fs && d.subDirectories == ds
  {
    var files0 := d.GetFiles();
    var dirs0 := d.GetSubDirectories();
    d.SetMetadata(m);
    var m1 := d.GetMetadata();
    var fs1 := d.GetFiles();
    var ds1 := d.GetSubDirectories();
    assert m1 == m && fs1 == files0 && ds1 == dirs0;

    d.SetFiles(fs);
    var m2 := d.GetMetadata();
    var fs2 := d.GetFiles();
    var ds2 := d.GetSubDirectories();
    assert m2 == m && fs2 == fs && ds2 == dirs0;

    d.SetSubDirectories(ds);
    var m3 := d.GetMetadata();
    var fs3 := d.GetFiles();
    var ds3 := d.GetSubDirectories();
    assert m3 == m && fs3 == fs && ds3 == ds;

    d.SetName(name);
    var m4 := d.GetMetadata();
    var fs4 := d.GetFiles();
    var ds4 := d.GetSubDirectories();
    assert m4.name == name && m4.userMetadata == m.userMetadata && fs4 == fs && ds4 == ds;
  }
}
