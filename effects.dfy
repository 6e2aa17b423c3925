/**
 * The filesystem primitives the steps end in. Each is a foreign call; the model
 * records only that it is invoked and with which arguments.
 */
module Effects {

  datatype Primitive =
    | CopyTreeCall(source: string, destination: string, ignore: seq<string>, symlinks: bool, dirsExistOk: bool)
      // shutil.copytree(source, destination, ignore=ignore_patterns(*ignore), symlinks=..., dirs_exist_ok=...)
    | CopyFileCall(source: string, destination: string, followSymlinks: bool)
      // shutil.copyfile(source, destination, follow_symlinks=...)
    | MoveCall(source: string, destination: string)
      // shutil.move(source, destination)
    | RmTreeCall(path: string, ignoreErrors: bool)
      // shutil.rmtree(path, ignore_errors=...)
    | UnlinkCall(path: string)
      // os.unlink(path)

  /**
   * Whether a tree copy dereferences symbolic links: shutil.copytree copies the
   * link targets when its `symlinks` argument is false and recreates the links when it is true.
   */
  predicate FollowsLinks(c: Primitive)
    requires c.CopyTreeCall?
  {
    !c.symlinks
  }
}
