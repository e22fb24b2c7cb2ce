/**
  The Flyweight pattern: a factory that hands out one File object per path,
  loading a file only the first time its path is asked for and keeping every
  loaded file in a cache that is never evicted.

  The file system is a parameter: a map from path to contents, where a path
  that is a key exists on disk.
*/
module Flyweight {

  /** Paths that exist, with their contents. */
  type FileSystem = map<string, string>

  datatype Result<T> = Ok(value: T) | InvalidArgument(message: string)

  /** The message of the exception File's constructor throws for a missing
      file. */
  function DoesNotExist(filePath: string): string
  {
    "File does not exist: " + filePath
  }

  /** A loaded file: its contents are read once, at construction. */
  class File {
    const data: string

    constructor (data: string)
      ensures this.data == data
    {
      this.data := data;
    }

    /** The contents read when the file was constructed. */
    function GetData(): (d: string)
      ensures d == data
    {
      data
    }
  }

  /** File's constructor: throws for a path that does not exist, otherwise
      a new File holding that path's contents. */
  method NewFile(filePath: string, fs: FileSystem) returns (r: Result<File>)
    ensures filePath !in fs ==> r == InvalidArgument(DoesNotExist(filePath))
    ensures filePath in fs ==> r.Ok? && fresh(r.value) && r.value.GetData() == fs[filePath]
  {
    if filePath !in fs {
      return InvalidArgument(DoesNotExist(filePath));
    }
    var f := new File(fs[filePath]);
    r := Ok(f);
  }

  /** The paths cached after one getFile call on filePath: a miss on an
      existing path adds it; a hit or an exception leaves the paths as they
      were. */
  function CacheStep(cached: set<string>, filePath: string, fs: FileSystem): (r: set<string>)
    ensures cached <= r && r <= cached + {filePath}
    ensures filePath in r <==> filePath in cached || filePath in fs
  {
    if filePath in cached || filePath !in fs then cached else cached + {filePath}
  }

  /** The paths cached after getFile has been called on each of paths in
      turn (an exception being caught and the calls carrying on). */
  function CachedAfter(cached: set<string>, paths: seq<string>, fs: FileSystem): set<string>
    decreases |paths|
  {
    if paths == [] then cached else CachedAfter(CacheStep(cached, paths[0], fs), paths[1..], fs)
  }

  /** The cache ends up holding what it held before, plus every requested
      path that exists: the number of distinct paths successfully loaded. */
  lemma {:induction false} CachedAfterIsLoaded(cached: set<string>, paths: seq<string>, fs: FileSystem)
    ensures CachedAfter(cached, paths, fs) == cached + (set p | p in paths && p in fs)
    decreases |paths|
  {
    if paths != [] {
      CachedAfterIsLoaded(CacheStep(cached, paths[0], fs), paths[1..], fs);
      assert forall p :: p in paths <==> p == paths[0] || p in paths[1..];
    }
  }

  /** Repeating a request adds nothing to the cache. */
  lemma {:induction false} CacheStepIdempotent(cached: set<string>, filePath: string, fs: FileSystem)
    ensures CacheStep(CacheStep(cached, filePath, fs), filePath, fs) == CacheStep(cached, filePath, fs)
    ensures cached <= CacheStep(cached, filePath, fs)
  {
  }

  class Factory {
    /** Factory::$files, the cache keyed by path. */
    var files: map<string, File>

    constructor ()
      ensures files == map[]
    {
      files := map[];
    }

    /** Returns the cached File for filePath, constructing and caching it on
        a miss; the loader is consulted only on a miss, and a failed load
        leaves the cache as it was. Cached entries are never replaced. */
    method GetFile(filePath: string, fs: FileSystem) returns (r: Result<File>)
      modifies this
      ensures filePath in old(files) ==> r == Ok(old(files)[filePath]) && files == old(files)
      ensures filePath !in old(files) && filePath !in fs ==>
        r == InvalidArgument(DoesNotExist(filePath)) && files == old(files)
      ensures filePath !in old(files) && filePath in fs ==>
        && r.Ok? && fresh(r.value) && r.value.GetData() == fs[filePath]
        && files == old(files)[filePath := r.value]
      ensures files.Keys == CacheStep(old(files).Keys, filePath, fs)
      ensures forall p :: p in old(files) ==> p in files && files[p] == old(files)[p]
      ensures r.Ok? ==> filePath in files && files[filePath] == r.value
    {
      if filePath !in files {
        var loaded := NewFile(filePath, fs);
        if loaded.InvalidArgument? {
          return loaded;
        }
        files := files[filePath := loaded.value];
      }
      r := Ok(files[filePath]);
    }

    /** The number of files in the cache. */
    function FilesInCacheAmount(): (n: nat)
      reads this
      ensures n == |files.Keys|
    {
      |files|
    }
  }

  /** The script at the end of the source file: two requests for image.png
      give the same object, and after the nine requests over three distinct
      existing files the cache holds three files. */
  method FlyweightDemo(fs: FileSystem) returns (same: bool, amount: nat)
    requires "../Files/image.png" in fs && "../Files/image2.png" in fs && "../Files/image3.png" in fs
    ensures same
    ensures amount == 3
  {
    var a, b, c := "../Files/image.png", "../Files/image2.png", "../Files/image3.png";
    var factory := new Factory();
    var imageA := factory.GetFile(a, fs);
    var imageB := factory.GetFile(a, fs);
    same := imageA == imageB;

    assert factory.files.Keys == {a};
    var _ := factory.GetFile(a, fs);
    var _ := factory.GetFile(b, fs);
    assert factory.files.Keys == {a, b};
    var _ := factory.GetFile(b, fs);
    var _ := factory.GetFile(a, fs);
    assert factory.files.Keys == {a, b};
    var _ := factory.GetFile(c, fs);
    assert factory.files.Keys == {a, b, c};
    var _ := factory.GetFile(c, fs);
    var _ := factory.GetFile(b, fs);
    var _ := factory.GetFile(c, fs);
    assert factory.files.Keys == {a, b, c};
    amount := factory.FilesInCacheAmount();
  }
}
