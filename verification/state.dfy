/**
 * The State base class of states.py: a state is a name given at
 * construction and the entry behaviour of its subclass.
 */
module States {

  /** The State subclasses defined in states.py. */
  datatype Kind =
    | Init | Stdby | Cast | ManualWinchOut | ManualWinchIn
    | DownCast | UpCast | ReadData | Error | Help

  datatype State = State(name: string, kind: Kind)
  {
    /** `get_name`: the name the state was constructed with. */
    function GetName(): (r: string)
      ensures r == name
    {
      name
    }

    /** `__str__`: the same name. */
    function ToString(): (r: string)
      ensures r == name && r == GetName()
    {
      name
    }
  }
}
