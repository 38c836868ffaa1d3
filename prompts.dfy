/**
  The fixed text of the prompts in frontend/app/api/generate/route.ts, cut
  at the places where the route interpolates a value.
  */
module Prompts {
  const SystemPromptHead: string :=
    "You are Educel, an AI knowledge assistant for busy professionals and founders.\n\nTone Guidelines:\n- Calm, smart, slightly analytical\n- Practical and insightful, never motivational or cheesy\n- Use professional/founder-relevant examples\n- No citations unless explicitly asked\n- Avoid medical or legal advice; if requested, provide general info and suggest verification\n\nContent Rules:\n- "

  const SystemPromptTail: string :=
    "\n- Make every word count\n- Focus on actionable, memorable insights\n- Use concrete examples from business, technology, or professional contexts\n\nYou MUST respond with valid JSON only. No markdown, no explanation, just the JSON object."

  const ConciseInstruction: string :=
    "Keep content crisp and scannable. Prioritize actionable insights over depth."

  const DeeperInstruction: string :=
    "Provide slightly more context and nuance while remaining practical."

  const TopicOptionsHead: string :=
    "Generate 3 learning topic suggestions based on these preferred areas: "

  const TopicOptionsTail: string :=
    "\n\nRespond with ONLY this JSON structure:\n{\n  \"options\": [\n    {\"topic\": \"Specific topic title\", \"hook\": \"One intriguing line about why this matters\"},\n    {\"topic\": \"Specific topic title\", \"hook\": \"One intriguing line about why this matters\"},\n    {\"topic\": \"Specific topic title\", \"hook\": \"One intriguing line about why this matters\"}\n  ]\n}\n\nMake topics specific and immediately actionable (not broad categories). Hooks should create curiosity."

  const AdjacentHead: string :=
    "Based on the topic \""

  const AdjacentTail: string :=
    "\", suggest 3 related but distinct topics the user might want to explore next.\n\nRespond with ONLY this JSON structure:\n{\n  \"options\": [\n    {\"topic\": \"Adjacent topic title\", \"hook\": \"Why this connects and why it matters\"},\n    {\"topic\": \"Adjacent topic title\", \"hook\": \"Why this connects and why it matters\"},\n    {\"topic\": \"Adjacent topic title\", \"hook\": \"Why this connects and why it matters\"}\n  ]\n}"

  const ClarifyHead: string :=
    "The user wants to learn about: \""

  const ClarifyTail: string :=
    "\"\n\nThis is too broad or vague. Generate a clarifying question with 3 specific angle options.\n\nRespond with ONLY this JSON structure:\n{\n  \"question\": \"What angle interests you most?\",\n  \"options\": [\"Specific angle 1\", \"Specific angle 2\", \"Specific angle 3\"]\n}\n\nMake options distinct and practical for a professional/founder audience."

  const FollowUpHead: string :=
    "\n\nThis is a follow-up to: \""

  const FollowUpTail: string :=
    "\". Go deeper on a specific aspect or reveal an advanced insight."

  const LearnItemHead: string :=
    "Create a micro-learning item about: \""

  const LearnItemMid: string :=
    "\""

  const LearnItemTail: string :=
    "\n\nRespond with ONLY this JSON structure:\n{\n  \"title\": \"Clear, specific title (max 10 words)\",\n  \"hook\": \"One sentence that makes this feel essential to know\",\n  \"bullets\": [\n    \"Key insight 1 (max 16 words)\",\n    \"Key insight 2 (max 16 words)\",\n    \"Key insight 3 (max 16 words)\"\n  ],\n  \"example\": \"A concrete 2-4 sentence example, preferably from business/professional context\",\n  \"micro_action\": \"One specific thing to try today (max 140 characters)\",\n  \"quiz_question\": \"A thoughtful question to test understanding\",\n  \"quiz_answer\": \"Brief, clear answer\"\n}\n\nEnsure bullets are exactly 3 items. Make the micro_action immediately actionable."

  const RetrySuffix: string :=
    "\n\nIMPORTANT: Your previous response was not valid JSON. Please respond with ONLY the JSON object, no markdown formatting or additional text."
}
