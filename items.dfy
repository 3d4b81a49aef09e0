/**
 * Abstract pytest collection nodes: what the plugin reads of a test item,
 * of its enclosing classes and of its file.
 */
module Items {

  import opened Wrappers
  import opened Paths

  /** A pytest marker: its name and the truthiness of each positional argument. */
  datatype Marker = Marker(name: string, args: seq<bool>)

  /** A `pytest.Class` collector that encloses a test. */
  datatype ClassInfo = ClassInfo(nodeid: string, name: string, path: Path, markers: seq<Marker>)

  /** The first ancestor of a test that is not a Class: a File collector, or none at all. */
  datatype Anchor = FileAnchor(path: Path) | NoParent

  /** What a parameterized test has: a `callspec` and, normally, an `originalname`. */
  datatype Param = Param(originalName: Option<string>)

  /**
   * A collected test item. `path` is what get_node_path gives for it,
   * `lineno` is `location[1]` (0-based), `markers` its own markers,
   * `classes` the chain of enclosing classes, innermost first, and
   * `param` is present exactly when the item has a `callspec`.
   */
  datatype TestItem = TestItem(
    nodeid: string,
    name: string,
    path: Path,
    lineno: Option<nat>,
    markers: seq<Marker>,
    classes: seq<ClassInfo>,
    anchor: Anchor,
    param: Option<Param>)
}
