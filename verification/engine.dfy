/** The few engine-side values the scripts touch directly. */
module Wrappers {

  /** A value that may be absent: a save file that does not exist yet. */
  datatype Option<+T> = None | Some(value: T)
}

module Engine {

  /** A scene object as the scripts see it: its name, its tag and whether it is active. */
  class GameObject {
    const name: string
    const tag: string
    var active: bool

    constructor (name: string, tag: string, active: bool)
      ensures this.name == name && this.tag == tag && this.active == active
    {
      this.name := name;
      this.tag := tag;
      this.active := active;
    }

    /** Deactivates or activates the object. */
    method SetActive(value: bool)
      modifies this
      ensures active == value
    {
      active := value;
    }
  }
}
