/** ozpcenter/models/import_task.py: the stored import task and its
    interval setter. */
module ImportTaskModel {
  import opened Wrappers
  import opened Exceptions

  const UnitsMessage: string := "ImportTask units must be one of 'minutes', 'hours', or 'days'"

  /** The factor looked up by `set_exec_interval` (0 for an unknown unit). */
  function UnitFactor(unit: string): (factor: nat)
    ensures factor != 0 <==> unit in ["minutes", "hours", "days"]
    ensures unit == "minutes" ==> factor == 1
    ensures unit == "hours" ==> factor == 60
    ensures unit == "days" ==> factor == 24 * 60
  {
    if unit == "minutes" then 1
    else if unit == "hours" then 60
    else if unit == "days" then 1440
    else 0
  }

  class ImportTask {
    var name: string
    var url: Option<string>
    var extraUrlParams: Option<string>
    var enabled: bool
    /** The `exec_interval` foreign key (an interval schedule id). */
    var execInterval: Option<nat>
    /** The plain attribute `_exec_interval`, in minutes. */
    var execMinutes: Option<int>

    constructor (name: string, url: Option<string>, extraUrlParams: Option<string>)
      ensures this.name == name && this.url == url && this.extraUrlParams == extraUrlParams
      ensures enabled && execInterval.None? && execMinutes.None?
    {
      this.name := name;
      this.url := url;
      this.extraUrlParams := extraUrlParams;
      enabled := true;
      execInterval := None;
      execMinutes := None;
    }

    /** `set_exec_interval`: the interval in minutes, or ValueError for any
        other unit. Only `_exec_interval` is ever written. */
    method SetExecInterval(value: int, unit: string) returns (r: Result<(), Exception>)
      modifies this`execMinutes
      ensures unit == "minutes" ==> r.Ok? && execMinutes == Some(value)
      ensures unit == "hours" ==> r.Ok? && execMinutes == Some(value * 60)
      ensures unit == "days" ==> r.Ok? && execMinutes == Some(value * 1440)
      ensures unit !in ["minutes", "hours", "days"] ==>
                r == Err(ValueError(UnitsMessage)) && execMinutes == old(execMinutes)
    {
      var factor := UnitFactor(unit);
      if factor == 0 {
        return Err(ValueError(UnitsMessage));
      }
      execMinutes := Some(value * factor);
      return Ok(());
    }
  }
}
