/** Option and Result types shared by every module, and the exceptions the
    chart engine can raise, named after the Python exception classes. */
module Outcomes {

  datatype Option<+T> = None | Some(value: T)

  /** Why a ValueError was raised. The message texts themselves are not
      modelled, only which check produced them. */
  datatype Fault =
    | MissingKey(key: string)   // a birth record lacks "year", "month", "day" or "hour"
    | NotAStem                  // TIAN_GAN.index(...) found no entry
    | NotABranch                // DI_ZHI.index(...) or month_zhi_map.index(...) found no entry
    | BadHourFormat             // an hour that is neither an int nor a branch name
    | MonthOutOfRange           // a lunar month outside 1..12
    | BadHourBranch             // calc_life_body_palace was given a non-branch hour
    | EmptyYear                 // FourTransform.calc was given an empty year pair
    | BadPalaceStem             // FourTransform.calc was given a non-stem palace stem
    | EmptyBureau               // calculate was given an empty bureau label
    | NoBureauDigit             // calculate could read no number from a bureau label
    | NoBureauElement           // extract_bureau_number found neither a number nor an element
    | BadDigit                  // int(...) of a character that is not a decimal digit
    | BadDate                   // datetime.date(...) rejected the solar date
    | Param(inner: Fault)       // calculate re-raises a ValueError as "参数错误: ..."

  datatype Error =
    | ValueError(fault: Fault)
    | IndexError                // indexing into an empty string
    | ZeroDivisionError
    | RuntimeError(cause: Error) // calculate re-raises any other exception as "命盘计算失败: ..."

  datatype Result<+T> = Ok(value: T) | Err(error: Error) {
    predicate IsFailure() {
      Err?
    }

    function PropagateFailure<U>(): Result<U>
      requires Err?
    {
      Err(error)
    }

    function Extract(): T
      requires Ok?
    {
      value
    }
  }
}
