/** src/vulkan/queue_family.rs: picking the queue family used for graphics work. */
module QueueFamilies {
  import opened Base
  import opened Vk
  import Iter
  import Logging

  /** `QueueFamily`: the index of the graphics family, if one was found. */
  datatype QueueFamily = QueueFamily(graphicsFamily: Option<nat>) {
    /** `is_complete`. */
    predicate IsComplete() {
      graphicsFamily.Some?
    }
  }

  /** The test `find_graphical_queue_family` applies to each family: it has queues and
      its flags include the graphics bit. */
  predicate IsGraphical(props: QueueFamilyProperties) {
    props.queueCount > 0 && Contains(props.queueFlags, QUEUE_GRAPHICS)
  }

  /** `find_graphical_queue_family`: the first family that passes `IsGraphical`.
      The index is logged with `info!("..", graphics_family.unwrap())`; the `unwrap`
      runs only when info messages are enabled, and then panics when no family
      qualifies. Otherwise an incomplete `QueueFamily` is returned. */
  function FindGraphicalQueueFamily(props: seq<QueueFamilyProperties>, log: Logging.LevelFilter)
    : (r: Result<QueueFamily>)
    ensures r.Panicked? <==>
              Logging.InfoEnabled(log) && forall j :: 0 <= j < |props| ==> !IsGraphical(props[j])
    ensures r.Panicked? ==> r.panic == NoGraphicsFamily
    ensures r.Ok? && r.value.IsComplete() ==>
              var i := r.value.graphicsFamily.value;
              && i < |props| && IsGraphical(props[i])
              && forall j :: 0 <= j < i ==> !IsGraphical(props[j])
    ensures r.Ok? ==> (r.value.IsComplete() <==> exists j :: 0 <= j < |props| && IsGraphical(props[j]))
  {
    var graphicsFamily := Iter.Position(props, IsGraphical);
    if Logging.InfoEnabled(log) && graphicsFamily.None? then Panicked(NoGraphicsFamily)
    else Ok(QueueFamily(graphicsFamily))
  }
}
